/** Sharing one store is invisible: what a workshop is answered, and the rows it ends up with, are
    what it would get alone, for every interleaving of every workshop's operations. */
module TenantProofs {
  import opened Wrappers
  import opened Sequences
  import opened Tenant

  /** A workshop's own rows of a table. */
  function View(workshop: string, t: Table): Table { Keep(OwnedBy(workshop), t) }

  /** Every row belongs to some workshop and primary keys are distinct. */
  ghost predicate Sound(t: Table) {
    && (forall i :: 0 <= i < |t| ==> Workshop(t[i]).Text? && Workshop(t[i]).text != "")
    && (forall i, j :: 0 <= i < j < |t| ==> t[i].id != t[j].id)
  }

  // ---- table lemmas ----

  lemma {:induction false} KeepTwice<T>(p: T -> bool, q: T -> bool, t: seq<T>)
    requires forall i :: 0 <= i < |t| && p(t[i]) ==> q(t[i])
    ensures Keep(p, Keep(q, t)) == Keep(p, t)
  {
    if t == [] {
    } else {
      var r, rest := t[0], t[1..];
      assert t == [r] + rest;
      KeepTwice(p, q, rest);
      KeepCons(q, r, rest);
      KeepCons(p, r, rest);
      KeepCons(p, r, Keep(q, rest));
    }
  }

  function Patched(p: Row -> bool, data: Columns, r: Row): Row {
    if p(r) then r.(columns := r.columns + data) else r
  }

  /** Patching rows of `u` that stay with `u` is patching the view of `u`. */
  lemma {:induction false} PatchOwn(p: Row -> bool, data: Columns, t: Table, u: string)
    requires forall i :: 0 <= i < |t| && p(t[i]) ==> OwnedBy(u)(t[i]) && OwnedBy(u)(Patched(p, data, t[i]))
    ensures View(u, Patch(p, data, t)) == Patch(p, data, View(u, t))
  {
    if t == [] {
    } else {
      var r, rest := t[0], t[1..];
      assert t == [r] + rest;
      PatchOwn(p, data, rest, u);
      KeepCons(OwnedBy(u), Patched(p, data, r), Patch(p, data, rest));
      KeepCons(OwnedBy(u), r, rest);
    }
  }

  lemma {:induction false} PatchOther(p: Row -> bool, data: Columns, t: Table, w: string)
    requires forall i :: 0 <= i < |t| && p(t[i]) ==> !OwnedBy(w)(t[i]) && !OwnedBy(w)(Patched(p, data, t[i]))
    ensures View(w, Patch(p, data, t)) == View(w, t)
  {
    if t == [] {
    } else {
      var r, rest := t[0], t[1..];
      assert t == [r] + rest;
      PatchOther(p, data, rest, w);
      KeepCons(OwnedBy(w), Patched(p, data, r), Patch(p, data, rest));
      KeepCons(OwnedBy(w), r, rest);
    }
  }

  lemma {:induction false} PatchNone(p: Row -> bool, data: Columns, t: Table)
    requires Keep(p, t) == []
    ensures Patch(p, data, t) == t
  {
    if t == [] {
    } else {
      PatchNone(p, data, t[1..]);
    }
  }

  lemma {:induction false} PatchAt(p: Row -> bool, data: Columns, t: Table)
    ensures |Patch(p, data, t)| == |t|
    ensures forall i :: 0 <= i < |t| ==>
      Patch(p, data, t)[i] == if p(t[i]) then t[i].(columns := t[i].columns + data) else t[i]
  {
    if t == [] {
    } else {
      PatchAt(p, data, t[1..]);
    }
  }

  lemma {:induction false} EraseView(p: Row -> bool, t: Table, w: string)
    ensures View(w, Erase(p, t)) == Erase(p, View(w, t))
  {
    if t == [] {
    } else {
      var r, rest := t[0], t[1..];
      assert t == [r] + rest;
      EraseView(p, rest, w);
      KeepCons(OwnedBy(w), r, Erase(p, rest));
      KeepCons(OwnedBy(w), r, rest);
    }
  }

  lemma {:induction false} EraseNone(p: Row -> bool, t: Table)
    requires forall r :: r in t ==> !p(r)
    ensures Erase(p, t) == t
  {
    if t == [] {
    } else {
      EraseNone(p, t[1..]);
    }
  }

  lemma {:induction false} EraseSubset(p: Row -> bool, t: Table, r: Row)
    requires r in Erase(p, t)
    ensures r in t
  {
    if r !in Erase(p, t[1..]) {
    } else {
      EraseSubset(p, t[1..], r);
    }
  }

  lemma {:induction false} EraseSound(p: Row -> bool, t: Table)
    requires Sound(t)
    ensures Sound(Erase(p, t))
  {
    if t == [] {
    } else {
      assert forall i :: 0 <= i < |t[1..]| ==> t[1..][i] == t[i + 1];
      EraseSound(p, t[1..]);
      var rest := Erase(p, t[1..]);
      forall i | 0 <= i < |rest| ensures rest[i].id != t[0].id {
        EraseSubset(p, t[1..], rest[i]);
        var j :| 0 <= j < |t[1..]| && t[1..][j] == rest[i];
        assert t[j + 1] == rest[i];
      }
    }
  }

  // ---- one operation ----

  /** The answer says whose row it is. */
  predicate ShowsWorkshop(args: Args) { args.select.Some? ==> WORKSHOP_ID in args.select.value }

  /** The operation cannot be told apart from a private one: a `findUnique` that does not select the
      workshop finds no other workshop's row, a create takes no id that another workshop's row holds,
      and an update that reaches a row leaves its workshop alone. */
  predicate Isolated(t: Table, op: Operation, args: Args, u: string) {
    match op
    case FindUnique =>
      ShowsWorkshop(args) || forall r :: r in t && SelectsUnique(args.id, args.where)(r) ==> OwnedBy(u)(r)
    case Create => Collides(t, [Row(args.id, args.data)]) ==> Collides(View(u, t), [Row(args.id, args.data)])
    case CreateMany => Collides(t, args.many) ==> Collides(View(u, t), args.many)
    case Update =>
      WORKSHOP_ID in args.data && Keep(SelectsUnique(args.id, Scoped(op, args, u).where), t) != [] ==>
        args.data[WORKSHOP_ID] == Text(u)
    case UpdateMany =>
      WORKSHOP_ID in args.data && Keep(Selects(Scoped(op, args, u).where), t) != [] ==>
        args.data[WORKSHOP_ID] == Text(u)
    case _ => true
  }

  /** The caller is answered as if alone and keeps its own rows; nobody else's rows move, and no row
      is left without a workshop. */
  ghost predicate Private(t: Table, op: Operation, args: Args, u: string) {
    var (after, answer) := AsWorkshop(t, op, args, u);
    && AsWorkshop(View(u, t), op, args, u) == (View(u, after), answer)
    && (forall w :: w != u ==> View(w, after) == View(w, t))
    && Sound(after)
  }

  lemma {:induction false} ScopedSelects(op: Operation, args: Args, u: string, r: Row)
    requires !op.FindUnique? && !op.Create? && !op.CreateMany?
    ensures Selects(Scoped(op, args, u).where)(r) ==> OwnedBy(u)(r)
    ensures SelectsUnique(args.id, Scoped(op, args, u).where)(r) ==> OwnedBy(u)(r)
  {
    assert WORKSHOP_ID in Scoped(op, args, u).where;
  }

  lemma {:induction false} ReadPrivate(t: Table, op: Operation, args: Args, u: string)
    requires Sound(t) && IsRead(op)
    ensures Private(t, op, args, u)
  {
    var p := Selects(Scoped(op, args, u).where);
    forall i | 0 <= i < |t| && p(t[i]) ensures OwnedBy(u)(t[i]) { ScopedSelects(op, args, u, t[i]); }
    KeepTwice(p, OwnedBy(u), t);
  }

  lemma {:induction false} KeepUnique(t: Table, id: string, where: Where, u: string)
    requires Sound(t)
    ensures |Keep(SelectsUnique(id, where), t)| <= 1
    ensures Keep(SelectsUnique(id, where), View(u, t)) == Keep(OwnedBy(u), Keep(SelectsUnique(id, where), t))
  {
    if t == [] {
    } else {
      var p, r, rest := SelectsUnique(id, where), t[0], t[1..];
      assert t == [r] + rest;
      assert forall i :: 0 <= i < |rest| ==> rest[i] == t[i + 1];
      KeepUnique(rest, id, where, u);
      KeepCons(p, r, rest);
      KeepCons(OwnedBy(u), r, rest);
      KeepCons(p, r, View(u, rest));
      KeepCons(OwnedBy(u), r, Keep(p, rest));
      if p(r) {
        KeepNone(p, rest);
      }
    }
  }

  /** The one row a `findUnique` meets, and what the rows of `u` alone would have shown of it. */
  lemma {:induction false} FoundFacts(t: Table, args: Args, u: string)
    requires Sound(t) && Keep(SelectsUnique(args.id, args.where), t) != []
    ensures var p := SelectsUnique(args.id, args.where);
      var r := Keep(p, t)[0];
      && r in t && p(r) && Workshop(r).Text? && Workshop(r).text != ""
      && (forall r' :: r' in t && p(r') ==> r' == r)
      && Keep(p, View(u, t)) == (if OwnedBy(u)(r) then [r] else [])
      && (ShowsWorkshop(args) ==> Workshop(Shown(args.select, r)) == Workshop(r))
      && (!ShowsWorkshop(args) ==> Workshop(Shown(args.select, r)) == Null)
  {
    var p := SelectsUnique(args.id, args.where);
    var r := Keep(p, t)[0];
    KeepUnique(t, args.id, args.where, u);
    KeepMember(p, t, r);
    assert Keep(p, t) == [r];
    forall r' | r' in t && p(r') ensures r' == r {
      KeepMember(p, t, r');
    }
  }

  lemma {:induction false} FindUniqueExact(t: Table, args: Args, u: string)
    requires Sound(t) && u != ""
    ensures Private(t, FindUnique, args, u) <==> Isolated(t, FindUnique, args, u)
  {
    var p := SelectsUnique(args.id, args.where);
    KeepUnique(t, args.id, args.where, u);
    forall r | r in t ensures r in Keep(p, t) <==> p(r) {
      KeepMember(p, t, r);
    }
    if Keep(p, t) != [] {
      FoundFacts(t, args, u);
    }
  }

  /** A `findUnique` that leaves the workshop out of its `select` shows a row of another workshop. */
  lemma {:induction false} SelectShowsForeignRow(args: Args, u: string, w: string, name: string)
    requires u != w && w != "" && args.select == Some({"id", "name"}) && args.where == map[]
    ensures var t := [Row(args.id, map[WORKSHOP_ID := Text(w), "name" := Text(name)])];
      && Sound(t) && View(u, t) == [] && !Isolated(t, FindUnique, args, u)
      && AsWorkshop(t, FindUnique, args, u).1 == Found(Some(Row(args.id, map["name" := Text(name)])))
      && AsWorkshop(View(u, t), FindUnique, args, u).1 == Found(None)
  {
    var r := Row(args.id, map[WORKSHOP_ID := Text(w), "name" := Text(name)]);
    assert SelectsUnique(args.id, args.where)(r) && r in [r];
    assert Shown(args.select, r) == Row(args.id, map["name" := Text(name)]);
  }

  lemma {:induction false} PatchSound(p: Row -> bool, data: Columns, t: Table, u: string)
    requires Sound(t) && (WORKSHOP_ID in data ==> data[WORKSHOP_ID] == Text(u))
    requires forall i :: 0 <= i < |t| && p(t[i]) ==> OwnedBy(u)(t[i])
    ensures Sound(Patch(p, data, t))
  {
    PatchAt(p, data, t);
  }

  lemma {:induction false} UpdatePrivate(t: Table, op: Operation, args: Args, u: string)
    requires Sound(t) && (op.Update? || op.UpdateMany?) && Isolated(t, op, args, u)
    ensures Private(t, op, args, u)
  {
    var where := Scoped(op, args, u).where;
    var p := if op.Update? then SelectsUnique(args.id, where) else Selects(where);
    forall i | 0 <= i < |t| && p(t[i]) ensures OwnedBy(u)(t[i]) { ScopedSelects(op, args, u, t[i]); }
    KeepTwice(p, OwnedBy(u), t);
    if Keep(p, t) == [] {
      PatchNone(p, args.data, t);
      PatchNone(p, args.data, View(u, t));
    } else {
      PatchSound(p, args.data, t, u);
      PatchOwn(p, args.data, t, u);
      forall w | w != u ensures View(w, Patch(p, args.data, t)) == View(w, t) {
        PatchOther(p, args.data, t, w);
      }
    }
  }

  lemma {:induction false} DeletePrivate(t: Table, op: Operation, args: Args, u: string)
    requires Sound(t) && (op.Delete? || op.DeleteMany?)
    ensures Private(t, op, args, u)
  {
    var where := Scoped(op, args, u).where;
    var p := if op.Delete? then SelectsUnique(args.id, where) else Selects(where);
    forall i | 0 <= i < |t| && p(t[i]) ensures OwnedBy(u)(t[i]) { ScopedSelects(op, args, u, t[i]); }
    KeepTwice(p, OwnedBy(u), t);
    EraseView(p, t, u);
    EraseSound(p, t);
    forall w | w != u ensures View(w, Erase(p, t)) == View(w, t) {
      EraseView(p, t, w);
      forall r | r in View(w, t) ensures !p(r) {
        KeepMember(OwnedBy(w), t, r);
      }
      EraseNone(p, View(w, t));
    }
  }

  // ---- creates ----

  lemma {:induction false} StampAt(many: seq<Row>, u: string)
    ensures |Stamp(many, u)| == |many|
    ensures forall i :: 0 <= i < |many| ==>
      Stamp(many, u)[i] == many[i].(columns := many[i].columns[WORKSHOP_ID := Text(u)])
  {
    if many == [] {
    } else {
      StampAt(many[1..], u);
    }
  }

  /** Stamping changes no id, so it changes no collision. */
  lemma {:induction false} StampCollides(t: Table, many: seq<Row>, u: string)
    ensures Collides(t, Stamp(many, u)) == Collides(t, many)
  {
    StampAt(many, u);
    var stamped := Stamp(many, u);
    assert forall i :: 0 <= i < |many| ==> stamped[i].id == many[i].id;
    if Collides(t, many) {
      if i, j :| 0 <= i < j < |many| && many[i].id == many[j].id {
        assert stamped[i].id == stamped[j].id;
      } else {
        var i, j :| 0 <= i < |many| && 0 <= j < |t| && many[i].id == t[j].id;
        assert stamped[i].id == t[j].id;
      }
    }
  }

  lemma {:induction false} ViewCollides(t: Table, many: seq<Row>, u: string)
    requires Collides(View(u, t), many)
    ensures Collides(t, many)
  {
    if i, j :| 0 <= i < j < |many| && many[i].id == many[j].id {
    } else {
      var i, j :| 0 <= i < |many| && 0 <= j < |View(u, t)| && many[i].id == View(u, t)[j].id;
      KeepMember(OwnedBy(u), t, View(u, t)[j]);
      var k :| 0 <= k < |t| && t[k] == View(u, t)[j];
      assert many[i].id == t[k].id;
    }
  }

  lemma {:induction false} AppendPrivate(t: Table, added: seq<Row>, u: string)
    requires Sound(t) && u != "" && !Collides(t, added)
    requires forall i :: 0 <= i < |added| ==> OwnedBy(u)(added[i])
    ensures View(u, t + added) == View(u, t) + added
    ensures forall w :: w != u ==> View(w, t + added) == View(w, t)
    ensures Sound(t + added)
  {
    KeepAppend(OwnedBy(u), t, added);
    KeepAll(OwnedBy(u), added);
    forall w | w != u ensures View(w, t + added) == View(w, t) {
      KeepAppend(OwnedBy(w), t, added);
      KeepNone(OwnedBy(w), added);
    }
    forall i, j | 0 <= i < j < |t + added| ensures (t + added)[i].id != (t + added)[j].id {
      if |t| <= i {
        assert added[i - |t|].id != added[j - |t|].id;
      } else if |t| <= j {
        assert added[j - |t|].id != t[i].id;
      }
    }
  }

  /** The rows a create inserts, stamped with the caller's workshop. */
  function Inserted(op: Operation, args: Args, u: string): seq<Row>
    requires op.Create? || op.CreateMany?
  {
    if op.Create? then [Row(args.id, args.data[WORKSHOP_ID := Text(u)])] else Stamp(args.many, u)
  }

  function Asked(op: Operation, args: Args): seq<Row>
    requires op.Create? || op.CreateMany?
  {
    if op.Create? then [Row(args.id, args.data)] else args.many
  }

  lemma {:induction false} OneCollides(t: Table, r: Row, r': Row)
    requires r.id == r'.id
    ensures Collides(t, [r]) == Collides(t, [r'])
  {
    if Collides(t, [r]) {
      var j :| 0 <= j < |t| && r.id == t[j].id;
      assert [r'][0].id == t[j].id;
    }
    if Collides(t, [r']) {
      var j :| 0 <= j < |t| && r'.id == t[j].id;
      assert [r][0].id == t[j].id;
    }
  }

  lemma {:induction false} InsertedFacts(t: Table, op: Operation, args: Args, u: string)
    requires op.Create? || op.CreateMany?
    ensures forall i :: 0 <= i < |Inserted(op, args, u)| ==> OwnedBy(u)(Inserted(op, args, u)[i])
    ensures Collides(t, Inserted(op, args, u)) == Collides(t, Asked(op, args))
    ensures AsWorkshop(t, op, args, u).0 == if Collides(t, Asked(op, args)) then t else t + Inserted(op, args, u)
    ensures AsWorkshop(t, op, args, u).1 ==
      if Collides(t, Asked(op, args)) then UniqueViolation
      else if op.Create? then One(args.select, Inserted(op, args, u)) else Counted(|Inserted(op, args, u)|)
  {
    StampAt(args.many, u);
    StampCollides(t, args.many, u);
    OneCollides(t, Row(args.id, args.data), Row(args.id, args.data[WORKSHOP_ID := Text(u)]));
  }

  lemma {:induction false} CreatePrivate(t: Table, op: Operation, args: Args, u: string)
    requires Sound(t) && u != "" && (op.Create? || op.CreateMany?)
    ensures Isolated(t, op, args, u) <==> Private(t, op, args, u)
  {
    var asked, inserted := Asked(op, args), Inserted(op, args, u);
    InsertedFacts(t, op, args, u);
    InsertedFacts(View(u, t), op, args, u);
    if Collides(View(u, t), asked) {
      ViewCollides(t, asked, u);
    }
    if !Collides(t, asked) {
      AppendPrivate(t, inserted, u);
    }
  }

  // ---- updates that move a row ----

  /** A row that an update hands to another workshop, or to none, is missed or found by somebody. */
  lemma {:induction false} UpdateMoves(t: Table, op: Operation, args: Args, u: string)
    requires Sound(t) && (op.Update? || op.UpdateMany?) && !Isolated(t, op, args, u)
    ensures !Private(t, op, args, u)
  {
    var where := Scoped(op, args, u).where;
    var p := if op.Update? then SelectsUnique(args.id, where) else Selects(where);
    var r := Keep(p, t)[0];
    KeepMember(p, t, r);
    var i :| 0 <= i < |t| && t[i] == r;
    ScopedSelects(op, args, u, r);
    PatchAt(p, args.data, t);
    var after := Patch(p, args.data, t);
    assert after[i] in after && Workshop(after[i]) == args.data[WORKSHOP_ID];
    if Sound(after) {
      var w := Workshop(after[i]).text;
      KeepMember(OwnedBy(w), after, after[i]);
      KeepMember(OwnedBy(w), t, after[i]);
      assert after[i] !in t;
      assert after[i] in View(w, after) && after[i] !in View(w, t);
    }
  }

  /** One operation of a workshop is private exactly when it is isolated. */
  lemma {:induction false} PrivateIffIsolated(t: Table, op: Operation, args: Args, u: string)
    requires Sound(t) && u != ""
    ensures Private(t, op, args, u) <==> Isolated(t, op, args, u)
  {
    if IsRead(op) {
      ReadPrivate(t, op, args, u);
    } else if op.FindUnique? {
      FindUniqueExact(t, args, u);
    } else if op.Create? || op.CreateMany? {
      CreatePrivate(t, op, args, u);
    } else if op.Delete? || op.DeleteMany? {
      DeletePrivate(t, op, args, u);
    } else if Isolated(t, op, args, u) {
      UpdatePrivate(t, op, args, u);
    } else {
      UpdateMoves(t, op, args, u);
    }
  }

  // ---- interleaved runs ----

  datatype Call = Call(ctx: Context, model: string, op: Operation, args: Args)

  function Perform(store: Store, call: Call): (Store, Answer) {
    AllOperations(call.ctx, store, call.model, call.op, call.args)
  }

  function Final(store: Store, calls: seq<Call>): Store
    decreases calls
  {
    if calls == [] then store else Final(Perform(store, calls[0]).0, calls[1..])
  }

  /** What a workshop is answered over a run, in order. */
  function AnswersTo(w: string, store: Store, calls: seq<Call>): seq<Answer>
    decreases calls
  {
    if calls == [] then []
    else
      var (next, answer) := Perform(store, calls[0]);
      if calls[0].ctx.workshopId == Some(w) then [answer] + AnswersTo(w, next, calls[1..])
      else AnswersTo(w, next, calls[1..])
  }

  function CallsOf(w: string, calls: seq<Call>): seq<Call> {
    if calls == [] then []
    else if calls[0].ctx.workshopId == Some(w) then [calls[0]] + CallsOf(w, calls[1..])
    else CallsOf(w, calls[1..])
  }

  ghost predicate SoundStore(store: Store) { forall m :: Sound(TableOf(store, m)) }

  /** The call is on a scoped model, and isolated when it is made inside a workshop. */
  predicate IsolatedCall(store: Store, call: Call) {
    && call.model in TENANT_SCOPED_MODELS
    && (HasWorkshop(call.ctx) ==>
          Isolated(TableOf(store, call.model), call.op, call.args, call.ctx.workshopId.value))
  }

  /** Calls by platform admins and others, inside workshops and outside, each isolated when it is made. */
  ghost predicate IsolatedRun(store: Store, calls: seq<Call>)
    decreases calls
  {
    calls != [] ==> IsolatedCall(store, calls[0]) && IsolatedRun(Perform(store, calls[0]).0, calls[1..])
  }

  /** `alone` holds exactly the rows of `w` in `shared`. */
  ghost predicate IsViewOf(w: string, shared: Store, alone: Store) {
    forall m :: TableOf(alone, m) == View(w, TableOf(shared, m))
  }

  lemma {:induction false} PerformIs(store: Store, call: Call)
    requires HasWorkshop(call.ctx) && call.model in TENANT_SCOPED_MODELS
    ensures var t := TableOf(store, call.model);
      && Perform(store, call).1 == AsWorkshop(t, call.op, call.args, call.ctx.workshopId.value).1
      && TableOf(Perform(store, call).0, call.model) == AsWorkshop(t, call.op, call.args, call.ctx.workshopId.value).0
    ensures forall m :: m != call.model ==> TableOf(Perform(store, call).0, m) == TableOf(store, m)
  {
  }

  /** Outside any workshop nothing is written. */
  lemma {:induction false} OutsideWritesNothing(store: Store, call: Call)
    requires !HasWorkshop(call.ctx) && call.model in TENANT_SCOPED_MODELS
    ensures forall m :: TableOf(Perform(store, call).0, m) == TableOf(store, m)
  {
  }

  lemma {:induction false} StepInside(w: string, shared: Store, alone: Store, call: Call)
    requires SoundStore(shared) && IsViewOf(w, shared, alone)
    requires HasWorkshop(call.ctx) && IsolatedCall(shared, call)
    ensures SoundStore(Perform(shared, call).0)
    ensures call.ctx.workshopId == Some(w) ==> Perform(alone, call).1 == Perform(shared, call).1
    ensures call.ctx.workshopId == Some(w) ==> IsViewOf(w, Perform(shared, call).0, Perform(alone, call).0)
    ensures call.ctx.workshopId != Some(w) ==> IsViewOf(w, Perform(shared, call).0, alone)
  {
    var t, u := TableOf(shared, call.model), call.ctx.workshopId.value;
    assert Sound(t) && TableOf(alone, call.model) == View(w, t);
    PrivateIffIsolated(t, call.op, call.args, u);
    PerformIs(shared, call);
    PerformIs(alone, call);
    forall m ensures Sound(TableOf(Perform(shared, call).0, m)) {
      assert Sound(TableOf(shared, m));
    }
    forall m
      ensures TableOf(if u == w then Perform(alone, call).0 else alone, m) ==
        View(w, TableOf(Perform(shared, call).0, m))
    {
      assert TableOf(alone, m) == View(w, TableOf(shared, m));
    }
  }

  lemma {:induction false} Step(w: string, shared: Store, alone: Store, call: Call)
    requires w != "" && SoundStore(shared) && IsViewOf(w, shared, alone) && IsolatedCall(shared, call)
    ensures SoundStore(Perform(shared, call).0)
    ensures call.ctx.workshopId == Some(w) ==> Perform(alone, call).1 == Perform(shared, call).1
    ensures call.ctx.workshopId == Some(w) ==> IsViewOf(w, Perform(shared, call).0, Perform(alone, call).0)
    ensures call.ctx.workshopId != Some(w) ==> IsViewOf(w, Perform(shared, call).0, alone)
  {
    if HasWorkshop(call.ctx) {
      StepInside(w, shared, alone, call);
    } else {
      OutsideWritesNothing(shared, call);
      forall m
        ensures Sound(TableOf(Perform(shared, call).0, m))
        ensures TableOf(alone, m) == View(w, TableOf(Perform(shared, call).0, m))
      {
        assert Sound(TableOf(shared, m)) && TableOf(alone, m) == View(w, TableOf(shared, m));
      }
    }
  }

  /** Non-interference: over every interleaving, platform admins included, the answers to `w` and its
      final rows are those of running only its own calls on its own rows. */
  lemma {:induction false} NonInterference(w: string, shared: Store, alone: Store, calls: seq<Call>)
    requires w != "" && SoundStore(shared) && IsViewOf(w, shared, alone) && IsolatedRun(shared, calls)
    ensures AnswersTo(w, shared, calls) == AnswersTo(w, alone, CallsOf(w, calls))
    ensures IsViewOf(w, Final(shared, calls), Final(alone, CallsOf(w, calls)))
    decreases calls
  {
    if calls == [] {
    } else {
      var next := Perform(shared, calls[0]).0;
      Step(w, shared, alone, calls[0]);
      if calls[0].ctx.workshopId == Some(w) {
        NonInterference(w, next, Perform(alone, calls[0]).0, calls[1..]);
        assert CallsOf(w, calls)[0] == calls[0] && CallsOf(w, calls)[1..] == CallsOf(w, calls[1..]);
      } else {
        NonInterference(w, next, alone, calls[1..]);
      }
    }
  }

  // ---- the edges of the promise ----

  lemma {:induction false} SameSelection(p: Row -> bool, q: Row -> bool, data: Columns, t: Table)
    requires forall r :: r in t ==> p(r) == q(r)
    ensures Patch(p, data, t) == Patch(q, data, t) && Erase(p, t) == Erase(q, t)
  {
    if t == [] {
    } else {
      SameSelection(p, q, data, t[1..]);
    }
  }

  /** On a table a workshop has to itself, scoping an operation that does not mention `workshop_id`
      changes nothing. */
  lemma {:induction false} ScopingIsTransparent(t: Table, op: Operation, args: Args, w: string)
    requires forall i :: 0 <= i < |t| ==> OwnedBy(w)(t[i])
    requires WORKSHOP_ID !in args.where && !op.Create? && !op.CreateMany?
    ensures AsWorkshop(t, op, args, w) == Query(t, op, args)
  {
    var where := args.where[WORKSHOP_ID := OwnedBy(w)];
    forall r | r in t
      ensures Selects(where)(r) == Selects(args.where)(r)
      ensures SelectsUnique(args.id, where)(r) == SelectsUnique(args.id, args.where)(r)
    {
      assert where[WORKSHOP_ID](r);
      assert forall key :: key in args.where ==> where[key] == args.where[key];
    }
    var all, unique := Selects(args.where), SelectsUnique(args.id, args.where);
    KeepSame(Selects(where), all, t);
    KeepSame(SelectsUnique(args.id, where), unique, t);
    SameSelection(Selects(where), all, args.data, t);
    SameSelection(SelectsUnique(args.id, where), unique, args.data, t);
    forall r | r in Keep(unique, t) ensures r in t {
      KeepMember(unique, t, r);
    }
    SameSelection(SelectsUnique(args.id, where), unique, args.data, Keep(unique, t));
    if op.FindUnique? && Keep(unique, t) != [] {
      assert Keep(unique, t)[0] in Keep(unique, t);
    }
  }

  /** What a run is answered, in order. */
  function Answers(store: Store, calls: seq<Call>): (answers: seq<Answer>)
    ensures |answers| == |calls|
    decreases calls
  {
    if calls == [] then []
    else
      var (next, answer) := Perform(store, calls[0]);
      [answer] + Answers(next, calls[1..])
  }

  /** Outside any workshop, and without platform rights, a run of scoped operations writes nothing and
      cannot tell two stores apart, with the single exception of `findUnique`. */
  lemma {:induction false} NoWorkshopSeesNothing(a: Store, b: Store, calls: seq<Call>)
    requires forall i :: 0 <= i < |calls| ==>
      !HasWorkshop(calls[i].ctx) && !calls[i].ctx.isPlatformAdmin && calls[i].model in TENANT_SCOPED_MODELS
    ensures forall m :: TableOf(Final(a, calls), m) == TableOf(a, m)
    ensures forall i :: 0 <= i < |calls| && !calls[i].op.FindUnique? ==> Answers(a, calls)[i] == Answers(b, calls)[i]
    decreases calls
  {
    if calls == [] {
    } else {
      var nextA, nextB := Perform(a, calls[0]).0, Perform(b, calls[0]).0;
      assert forall i :: 0 <= i < |calls[1..]| ==> calls[1..][i] == calls[i + 1];
      OutsideWritesNothing(a, calls[0]);
      NoWorkshopSeesNothing(nextA, nextB, calls[1..]);
      forall i | 0 <= i < |calls| && !calls[i].op.FindUnique?
        ensures Answers(a, calls)[i] == Answers(b, calls)[i]
      {
        if i > 0 {
          assert calls[1..][i - 1] == calls[i];
        }
      }
    }
  }
}
