/** Every import accounts for its rows, never doubles a job number or a VIN, and can be repeated. */
module BookingProofs {
  import opened Wrappers
  import opened Sequences
  import opened Text
  import opened BookingImport

  // ---- reading rows ----

  /** A field is what the last mapping onto it that finds its column says. */
  lemma {:induction false} MappedLast(raw: RawRow, mappings: seq<Mapping>, n: nat, i: nat)
    requires i < n <= |mappings| && mappings[i].target != Ignore && mappings[i].source in raw
    requires forall j :: i < j < n && mappings[j].source in raw ==> mappings[j].target != mappings[i].target
    ensures var row := Mapped(raw, mappings, n);
      mappings[i].target in row && row[mappings[i].target] == raw[mappings[i].source]
  {
    if i < n - 1 {
      MappedLast(raw, mappings, n - 1, i);
    }
  }

  lemma {:induction false} MappedOnly(raw: RawRow, mappings: seq<Mapping>, n: nat, t: Target)
    requires n <= |mappings|
    ensures t in Mapped(raw, mappings, n) <==>
      t != Ignore && exists i :: 0 <= i < n && mappings[i].target == t && mappings[i].source in raw
  {
    if n == 0 {
    } else {
      MappedOnly(raw, mappings, n - 1, t);
      if i :| 0 <= i < n && mappings[i].target == t != Ignore && mappings[i].source in raw {
        assert i == n - 1 || t in Mapped(raw, mappings, n - 1);
      }
    }
  }

  lemma {:induction false} UpperDropLeft(s: string)
    ensures DropLeft(IsSpace, UpperAll(s)) == UpperAll(DropLeft(IsSpace, s))
  {
    if s == [] {
    } else {
      assert UpperAll(s)[1..] == UpperAll(s[1..]);
      UpperDropLeft(s[1..]);
    }
  }

  lemma {:induction false} UpperDropRight(s: string)
    ensures DropRight(IsSpace, UpperAll(s)) == UpperAll(DropRight(IsSpace, s))
  {
    if s == [] {
    } else {
      assert UpperAll(s)[..|s| - 1] == UpperAll(s[..|s| - 1]);
      UpperDropRight(s[..|s| - 1]);
    }
  }

  /** Spellings of a VIN that differ in case only are one VIN. */
  lemma {:induction false} VinIgnoresCase(a: string, b: string)
    requires UpperAll(a) == UpperAll(b)
    ensures NormalizeVin(a) == NormalizeVin(b)
  {
    forall s ensures UpperAll(Trim(s)) == Trim(UpperAll(s)) {
      UpperDropLeft(s);
      UpperDropRight(DropLeft(IsSpace, s));
    }
  }

  // ---- the tables ----

  ghost predicate DistinctNumbers(jobs: seq<Job>) {
    forall i, j :: 0 <= i < j < |jobs| && jobs[i].number != "" ==> jobs[i].number != jobs[j].number
  }

  ghost predicate DistinctVins(vehicles: seq<Vehicle>) {
    forall i, j :: 0 <= i < j < |vehicles| && vehicles[i].vin != "" ==> vehicles[i].vin != vehicles[j].vin
  }

  predicate HasCustomer(st: Store, id: Id) { exists i :: 0 <= i < |st.customers| && st.customers[i].id == id }

  predicate HasVehicle(st: Store, id: Id) { exists i :: 0 <= i < |st.vehicles| && st.vehicles[i].id == id }

  /** No two jobs share a number, no two vehicles a VIN, and every job has its customer and vehicle. */
  ghost predicate Inv(st: Store) {
    && DistinctNumbers(st.jobs)
    && DistinctVins(st.vehicles)
    && forall j :: j in st.jobs ==> HasCustomer(st, j.customer) && HasVehicle(st, j.vehicle)
  }

  predicate SameVehicle(v: Vehicle, w: Vehicle) { w.id == v.id && (v.vin != "" ==> w.vin == v.vin) }

  /** Importing only adds: customers, vehicles and jobs stay, vehicles keep their id and their VIN. */
  ghost predicate Grows(st: Store, r: Store) {
    && st.customers <= r.customers
    && st.jobs <= r.jobs
    && |st.vehicles| <= |r.vehicles|
    && forall i :: 0 <= i < |st.vehicles| ==> SameVehicle(st.vehicles[i], r.vehicles[i])
  }

  lemma {:induction false} CustomerKeeps(st: Store, row: Row)
    requires Inv(st)
    ensures var (r, id) := EnsureCustomer(st, row); Inv(r) && Grows(st, r) && r.jobs == st.jobs && HasCustomer(r, id)
  {
    var (r, id) := EnsureCustomer(st, row);
    assert Grows(st, r);
    if FindCustomer(st.customers, row).None? {
      assert r.customers[|st.customers|].id == id;
    }
    forall j | j in st.jobs ensures HasCustomer(r, j.customer) && HasVehicle(r, j.vehicle) {
    }
  }

  /** A VIN that the lookup did not find is on no vehicle. */
  lemma {:induction false} VinIsNew(vehicles: seq<Vehicle>, row: Row, customer: Id)
    requires Vin(row) != "" && First(Vin(row), VinIs(Vin(row)), vehicles).None?
    ensures forall i :: 0 <= i < |vehicles| ==> vehicles[i].vin != Vin(row)
  {
    IndexWhereFirst(VinIs(Vin(row)), vehicles);
    forall i | 0 <= i < |vehicles| ensures vehicles[i].vin != Vin(row) {
      assert !VinIs(Vin(row))(vehicles[i]);
    }
  }

  lemma {:induction false} VehicleKeepsVins(st: Store, row: Row, customer: Id)
    requires DistinctVins(st.vehicles)
    ensures var (r, id) := EnsureVehicle(st, row, customer);
      DistinctVins(r.vehicles) && Grows(st, r) && HasVehicle(r, id)
  {
    var (r, id) := EnsureVehicle(st, row, customer);
    var k := FindVehicle(st.vehicles, row, customer);
    if Vin(row) != "" && First(Vin(row), VinIs(Vin(row)), st.vehicles).None? {
      VinIsNew(st.vehicles, row, customer);
    }
    if k.Some? {
      var v := st.vehicles[k.value];
      assert r.vehicles[k.value].id == id;
    } else {
      assert r.vehicles[|st.vehicles|].id == id;
    }
  }

  lemma {:induction false} VehicleKeeps(st: Store, row: Row, customer: Id)
    requires Inv(st)
    ensures var (r, id) := EnsureVehicle(st, row, customer);
      Inv(r) && Grows(st, r) && r.jobs == st.jobs && r.customers == st.customers && HasVehicle(r, id)
  {
    var (r, id) := EnsureVehicle(st, row, customer);
    VehicleKeepsVins(st, row, customer);
    forall j | j in st.jobs ensures HasCustomer(r, j.customer) && HasVehicle(r, j.vehicle) {
    }
  }

  lemma {:induction false} NumberIsNew(jobs: seq<Job>, job: Job)
    requires DistinctNumbers(jobs) && (job.number != "" ==> IndexWhere(NumberIs(job.number), jobs) == |jobs|)
    ensures DistinctNumbers(jobs + [job])
  {
    IndexWhereFirst(NumberIs(job.number), jobs);
    forall i | 0 <= i < |jobs| && job.number != "" ensures jobs[i].number != job.number {
      assert !NumberIs(job.number)(jobs[i]);
    }
  }

  lemma {:induction false} BookKeeps(st: Store, row: Row, customer: Id, vehicle: Id, rules: Rules)
    requires Inv(st) && HasCustomer(st, customer) && HasVehicle(st, vehicle)
    ensures var (r, outcome) := Book(st, row, customer, vehicle, rules);
      Inv(r) && Grows(st, r) && |r.jobs| == |st.jobs| + if outcome == Created then 1 else 0
  {
    var (r, outcome) := Book(st, row, customer, vehicle, rules);
    if outcome == Created {
      NumberIsNew(st.jobs, r.jobs[|st.jobs|]);
      forall j | j in r.jobs ensures HasCustomer(r, j.customer) && HasVehicle(r, j.vehicle) {
      }
    }
  }

  lemma {:induction false} RowKeeps(st: Store, row: Row, rules: Rules)
    requires Inv(st)
    ensures var (r, outcome) := ImportRow(st, row, rules);
      Inv(r) && Grows(st, r) && |r.jobs| == |st.jobs| + if outcome == Created then 1 else 0
  {
    if !Ignored(row, rules) {
      var (b, customer) := EnsureCustomer(st, row);
      var (c, vehicle) := EnsureVehicle(b, row, customer);
      CustomerKeeps(st, row);
      VehicleKeeps(b, row, customer);
      BookKeeps(c, row, customer, vehicle, rules);
    }
  }

  // ---- repeating a run ----

  /** A row that no longer creates a job. */
  predicate Blocked(st: Store, row: Row, rules: Rules) {
    Ignored(row, rules) || NumberTaken(st, Field(row, JobNumber)) || VinBooked(st, Vin(row)) || DateFails(row, rules)
  }

  lemma {:induction false} NumberStaysTaken(st: Store, r: Store, number: string)
    requires NumberTaken(st, number) && Grows(st, r)
    ensures NumberTaken(r, number)
  {
    var i := IndexWhere(NumberIs(number), st.jobs);
    IndexWhereFirst(NumberIs(number), r.jobs);
    assert NumberIs(number)(r.jobs[i]);
  }

  lemma {:induction false} VinStaysBooked(st: Store, r: Store, vin: string)
    requires VinBooked(st, vin) && Grows(st, r) && DistinctVins(r.vehicles)
    ensures VinBooked(r, vin)
  {
    var k := IndexWhere(VinIs(vin), st.vehicles);
    assert SameVehicle(st.vehicles[k], r.vehicles[k]) && r.vehicles[k].vin == vin;
    forall i | 0 <= i < |r.vehicles| && i != k ensures !VinIs(vin)(r.vehicles[i]) {
    }
    IndexWhereUnique(VinIs(vin), r.vehicles, k);
    var id := st.vehicles[k].id;
    var j := IndexWhere(BookedFor(id), st.jobs);
    IndexWhereFirst(BookedFor(id), r.jobs);
    assert BookedFor(id)(r.jobs[j]);
  }

  lemma {:induction false} StaysBlocked(st: Store, r: Store, row: Row, rules: Rules)
    requires Blocked(st, row, rules) && Grows(st, r) && Inv(r)
    ensures Blocked(r, row, rules)
  {
    if NumberTaken(st, Field(row, JobNumber)) {
      NumberStaysTaken(st, r, Field(row, JobNumber));
    }
    if VinBooked(st, Vin(row)) {
      VinStaysBooked(st, r, Vin(row));
    }
  }

  /** A blocked row creates nothing. */
  lemma {:induction false} BlockedCreatesNothing(st: Store, row: Row, rules: Rules)
    requires Inv(st) && Blocked(st, row, rules)
    ensures ImportRow(st, row, rules).1 != Created
  {
    if !Ignored(row, rules) {
      var (b, customer) := EnsureCustomer(st, row);
      var (c, vehicle) := EnsureVehicle(b, row, customer);
      CustomerKeeps(st, row);
      VehicleKeeps(b, row, customer);
      StaysBlocked(st, c, row, rules);
    }
  }

  /** The VIN of the row is on no vehicle, and its plate finds a vehicle that has another VIN: the row
      books that vehicle, which keeps its VIN. */
  predicate Misled(st: Store, row: Row) {
    var (b, customer) := EnsureCustomer(st, row);
    var plate := Field(row, VehiclePlate);
    var k := First(plate, PlateIs(plate, customer), b.vehicles);
    Vin(row) != "" && First(Vin(row), VinIs(Vin(row)), b.vehicles).None? && k.Some? && b.vehicles[k.value].vin != ""
  }

  /** A named row whose date parses or is absent, with neither number nor VIN: it creates a job every
      time. */
  predicate AlwaysCreates(row: Row, rules: Rules) {
    !Ignored(row, rules) && !DateFails(row, rules) && Field(row, JobNumber) == "" && Vin(row) == ""
  }

  /** A row that the import will recognise: by its number, or by a VIN that reaches its vehicle. */
  predicate Lasts(st: Store, row: Row, rules: Rules) {
    Ignored(row, rules) || DateFails(row, rules) || Field(row, JobNumber) != "" || (Vin(row) != "" && !Misled(st, row))
  }

  lemma {:induction false} NumberedIsBlocked(st: Store, row: Row, customer: Id, vehicle: Id, rules: Rules)
    requires Field(row, JobNumber) != ""
    ensures Blocked(Book(st, row, customer, vehicle, rules).0, row, rules)
  {
    var (r, outcome) := Book(st, row, customer, vehicle, rules);
    var number := Field(row, JobNumber);
    if outcome == Created {
      IndexWhereFirst(NumberIs(number), r.jobs);
      assert NumberIs(number)(r.jobs[|st.jobs|]);
    }
  }

  /** The vehicle of a row that is not misled carries its VIN. */
  lemma {:induction false} VehicleHasVin(st: Store, row: Row, customer: Id)
    requires DistinctVins(st.vehicles) && Vin(row) != ""
    ensures var (r, id) := EnsureVehicle(st, row, customer);
      var k, plate := IndexWhere(VinIs(Vin(row)), r.vehicles), Field(row, VehiclePlate);
      var found := First(plate, PlateIs(plate, customer), st.vehicles);
      if First(Vin(row), VinIs(Vin(row)), st.vehicles).None? && found.Some? && st.vehicles[found.value].vin != ""
      then k == |r.vehicles|
      else k < |r.vehicles| && r.vehicles[k].id == id
  {
    var r, vin := EnsureVehicle(st, row, customer).0, Vin(row);
    var k := FindVehicle(st.vehicles, row, customer);
    VehicleKeepsVins(st, row, customer);
    if First(vin, VinIs(vin), st.vehicles).None? {
      VinIsNew(st.vehicles, row, customer);
    }
    var at := if k.Some? then k.value else |st.vehicles|;
    if r.vehicles[at].vin == vin {
      IndexWhereUnique(VinIs(vin), r.vehicles, at);
    } else {
      IndexWhereNone(VinIs(vin), r.vehicles);
    }
  }

  lemma {:induction false} BookedVinIsBlocked(st: Store, row: Row, customer: Id, vehicle: Id, rules: Rules)
    requires Vin(row) != ""
    requires var k := IndexWhere(VinIs(Vin(row)), st.vehicles); k < |st.vehicles| && st.vehicles[k].id == vehicle
    ensures Blocked(Book(st, row, customer, vehicle, rules).0, row, rules)
  {
    var (r, outcome) := Book(st, row, customer, vehicle, rules);
    if outcome == Created {
      IndexWhereFirst(BookedFor(vehicle), r.jobs);
      assert BookedFor(vehicle)(r.jobs[|st.jobs|]);
    }
  }

  /** Importing a row blocks it exactly when it is one that lasts. */
  lemma {:induction false} ImportedIsBlocked(st: Store, row: Row, rules: Rules)
    requires Inv(st)
    ensures Blocked(ImportRow(st, row, rules).0, row, rules) <==> Lasts(st, row, rules)
    ensures !Lasts(st, row, rules) ==> ImportRow(st, row, rules).1 == Created
  {
    if Ignored(row, rules) || DateFails(row, rules) {
    } else {
      var (b, customer) := EnsureCustomer(st, row);
      var (c, vehicle) := EnsureVehicle(b, row, customer);
      CustomerKeeps(st, row);
      if Field(row, JobNumber) != "" {
        NumberedIsBlocked(c, row, customer, vehicle, rules);
      } else if Vin(row) != "" {
        VehicleHasVin(b, row, customer);
        if !Misled(st, row) {
          BookedVinIsBlocked(c, row, customer, vehicle, rules);
        }
      }
    }
  }

  /** What is known of one imported row. */
  ghost predicate RowFacts(st: Store, row: Row, rules: Rules, r: Store, outcome: RowOutcome) {
    && Inv(r) && Grows(st, r)
    && |r.jobs| == |st.jobs| + (if outcome == Created then 1 else 0)
    && (Blocked(st, row, rules) ==> outcome != Created)
    && (Blocked(r, row, rules) <==> Lasts(st, row, rules))
    && (!Lasts(st, row, rules) ==> outcome == Created)
  }

  /** A step that has these facts for every sound store and every row. */
  ghost predicate Sound(step: (Store, Row) -> (Store, RowOutcome), rules: Rules) {
    forall st, row :: Inv(st) ==> RowFacts(st, row, rules, step(st, row).0, step(st, row).1)
  }

  lemma {:induction false} RowFactsHold(st: Store, row: Row, rules: Rules)
    requires Inv(st)
    ensures RowFacts(st, row, rules, ImportRow(st, row, rules).0, ImportRow(st, row, rules).1)
  {
    RowKeeps(st, row, rules);
    if Blocked(st, row, rules) {
      BlockedCreatesNothing(st, row, rules);
    }
    ImportedIsBlocked(st, row, rules);
  }

  lemma {:induction false} ImporterSound(rules: Rules)
    ensures Sound(Importer(rules), rules)
  {
    forall st, row | Inv(st) ensures RowFacts(st, row, rules, Importer(rules)(st, row).0, Importer(rules)(st, row).1) {
      RowFactsHold(st, row, rules);
    }
  }

  lemma {:induction false} FirstKeeps(step: (Store, Row) -> (Store, RowOutcome), st: Store, rows: seq<Row>,
                                      rules: Rules, n: nat)
    requires Sound(step, rules) && Inv(st) && n <= |rows|
    ensures var (r, report) := ImportFirst(step, st, rows, n);
      && report.created + report.skipped + |report.errors| == n && report.total == |rows|
      && Inv(r) && Grows(st, r) && |r.jobs| == |st.jobs| + report.created
    decreases n
  {
    if n == 0 {
    } else {
      var before := ImportFirst(step, st, rows, n - 1).0;
      FirstKeeps(step, st, rows, rules, n - 1);
    }
  }

  /** Every run accounts for each row once, creates as many jobs as it says, and keeps the tables sound. */
  lemma {:induction false} ImportKeeps(st: Store, rows: seq<Row>, rules: Rules)
    requires Inv(st)
    ensures var (r, report) := Import(st, rows, rules);
      && report.created + report.skipped + |report.errors| == report.total == |rows|
      && Inv(r) && Grows(st, r) && |r.jobs| == |st.jobs| + report.created
  {
    ImporterSound(rules);
    FirstKeeps(Importer(rules), st, rows, rules, |rows|);
  }

  lemma {:induction false} LaterGrows(
    step: (Store, Row) -> (Store, RowOutcome), st: Store, rows: seq<Row>, rules: Rules, m: nat, n: nat)
    requires Sound(step, rules) && Inv(st) && m <= n <= |rows|
    ensures Grows(ImportFirst(step, st, rows, m).0, ImportFirst(step, st, rows, n).0)
    decreases n
  {
    if m < n {
      var before := ImportFirst(step, st, rows, n - 1).0;
      LaterGrows(step, st, rows, rules, m, n - 1);
      assert Inv(before) by {
        FirstKeeps(step, st, rows, rules, n - 1);
      }
    } else {
    }
  }

  /** After a run, each of its rows that lasted when it was imported is blocked. */
  lemma {:induction false} RunBlocks(
    step: (Store, Row) -> (Store, RowOutcome), st: Store, rows: seq<Row>, rules: Rules, n: nat, i: nat)
    requires Sound(step, rules) && Inv(st) && i < n <= |rows| && Lasts(ImportFirst(step, st, rows, i).0, rows[i], rules)
    ensures Blocked(ImportFirst(step, st, rows, n).0, rows[i], rules)
  {
    FirstKeeps(step, st, rows, rules, i);
    LaterGrows(step, st, rows, rules, i + 1, n);
    FirstKeeps(step, st, rows, rules, n);
    StaysBlocked(ImportFirst(step, st, rows, i + 1).0, ImportFirst(step, st, rows, n).0, rows[i], rules);
  }

  lemma {:induction false} BlockedRun(step: (Store, Row) -> (Store, RowOutcome), st: Store, rows: seq<Row>,
                                      rules: Rules, n: nat)
    requires Sound(step, rules) && Inv(st) && n <= |rows| && forall i :: 0 <= i < |rows| ==> Blocked(st, rows[i], rules)
    ensures ImportFirst(step, st, rows, n).1.created == 0
    decreases n
  {
    if n == 0 {
    } else {
      var before := ImportFirst(step, st, rows, n - 1).0;
      BlockedRun(step, st, rows, rules, n - 1);
      FirstKeeps(step, st, rows, rules, n - 1);
      StaysBlocked(st, before, rows[n - 1], rules);
    }
  }

  /** A batch whose rows all carry job numbers can be imported again: the second run creates no job. */
  lemma {:induction false} RerunCreatesNothing(st: Store, rows: seq<Row>, rules: Rules)
    requires Inv(st) && forall i :: 0 <= i < |rows| ==> Field(rows[i], JobNumber) != ""
    ensures var (once, _) := Import(st, rows, rules); Import(once, rows, rules).1.created == 0
    ensures var (once, _) := Import(st, rows, rules); Import(once, rows, rules).0.jobs == once.jobs
  {
    var once := Import(st, rows, rules).0;
    ImporterSound(rules);
    ImportKeeps(st, rows, rules);
    forall i | 0 <= i < |rows| ensures Blocked(once, rows[i], rules) {
      RunBlocks(Importer(rules), st, rows, rules, |rows|, i);
    }
    BlockedRun(Importer(rules), once, rows, rules, |rows|);
    ImportKeeps(once, rows, rules);
  }

  lemma {:induction false} CreatedCounts(
    step: (Store, Row) -> (Store, RowOutcome), st: Store, rows: seq<Row>, rules: Rules, n: nat, i: nat)
    requires Sound(step, rules) && Inv(st) && i < n <= |rows| && AlwaysCreates(rows[i], rules)
    ensures ImportFirst(step, st, rows, n).1.created > 0
    decreases n
  {
    FirstKeeps(step, st, rows, rules, n - 1);
    if i < n - 1 {
      CreatedCounts(step, st, rows, rules, n - 1, i);
    }
  }

  /** Importing a batch again creates no job exactly when every row is ignored, has a date that fails,
      or carries a number or a VIN, provided that no row without a number was misled when imported. */
  lemma {:induction false} RerunExact(st: Store, rows: seq<Row>, rules: Rules)
    requires Inv(st)
    requires forall i :: 0 <= i < |rows| ==>
      Lasts(ImportFirst(Importer(rules), st, rows, i).0, rows[i], rules) || AlwaysCreates(rows[i], rules)
    ensures var (once, _) := Import(st, rows, rules);
      Import(once, rows, rules).1.created == 0 <==> forall i :: 0 <= i < |rows| ==> !AlwaysCreates(rows[i], rules)
  {
    var once := Import(st, rows, rules).0;
    ImporterSound(rules);
    ImportKeeps(st, rows, rules);
    if i: nat :| i < |rows| && AlwaysCreates(rows[i], rules) {
      CreatedCounts(Importer(rules), once, rows, rules, |rows|, i);
    } else {
      forall i | 0 <= i < |rows| ensures Blocked(once, rows[i], rules) {
        RunBlocks(Importer(rules), st, rows, rules, |rows|, i);
      }
      BlockedRun(Importer(rules), once, rows, rules, |rows|);
    }
  }

  /** A VIN without a plate is never misled, so for such rows the condition can be read off the batch. */
  lemma {:induction false} RerunWithoutPlates(st: Store, rows: seq<Row>, rules: Rules)
    requires Inv(st) && forall i :: 0 <= i < |rows| && Vin(rows[i]) != "" ==> Field(rows[i], VehiclePlate) == ""
    ensures var (once, _) := Import(st, rows, rules);
      Import(once, rows, rules).1.created == 0 <==> forall i :: 0 <= i < |rows| ==> !AlwaysCreates(rows[i], rules)
  {
    forall i | 0 <= i < |rows|
      ensures Lasts(ImportFirst(Importer(rules), st, rows, i).0, rows[i], rules) || AlwaysCreates(rows[i], rules)
    {
    }
    RerunExact(st, rows, rules);
  }

  /** The customer of a row is found again. */
  lemma {:induction false} CustomerAgain(st: Store, row: Row)
    requires Field(row, CustomerName) != ""
    ensures var (r, id) := EnsureCustomer(st, row); EnsureCustomer(r, row) == (r, id)
  {
    var phone, email, name := Field(row, CustomerPhone), Field(row, CustomerEmail), Field(row, CustomerName);
    if FindCustomer(st.customers, row).None? {
      var c := Customer(st.issued, name, email, phone, true);
      IndexWhereAppend(PhoneIs(phone), st.customers, c);
      IndexWhereAppend(EmailIs(email), st.customers, c);
      IndexWhereAppend(NameIs(name), st.customers, c);
    }
  }

  lemma {:induction false} SameCustomers(a: Store, b: Store, row: Row)
    requires a.customers == b.customers && FindCustomer(a.customers, row).Some?
    ensures EnsureCustomer(b, row) == (b, EnsureCustomer(a, row).1)
  {
  }

  lemma {:induction false} MisledStays(st: Store, row: Row, rules: Rules)
    requires Inv(st) && Misled(st, row) && !Ignored(row, rules)
    ensures Misled(ImportRow(st, row, rules).0, row)
  {
    var (b, customer) := EnsureCustomer(st, row);
    var (c, vehicle) := EnsureVehicle(b, row, customer);
    var r, plate := ImportRow(st, row, rules).0, Field(row, VehiclePlate);
    CustomerAgain(st, row);
    CustomerKeeps(st, row);
    VehicleHasVin(b, row, customer);
    var k := FindVehicle(b.vehicles, row, customer).value;
    IndexWhereUpdate(PlateIs(plate, customer), b.vehicles, k, Refreshed(b.vehicles[k], row, customer));
    SameCustomers(c, r, row);
  }

  lemma {:induction false} ImportOneRow(st: Store, row: Row, rules: Rules)
    ensures var (r, outcome) := ImportRow(st, row, rules);
      Import(st, [row], rules) == (r, Counted(Report(1, 0, 0, []), outcome, 1))
  {
    assert ImportFirst(Importer(rules), st, [row], 0) == (st, Report(1, 0, 0, []));
  }

  /** A batch of one row can be imported again without creating a job exactly when the row lasts. */
  lemma {:induction false} RerunOneExact(st: Store, row: Row, rules: Rules)
    requires Inv(st)
    ensures var (once, _) := Import(st, [row], rules);
      Import(once, [row], rules).1.created == 0 <==> Lasts(st, row, rules)
  {
    var once := ImportRow(st, row, rules).0;
    ImportOneRow(st, row, rules);
    ImportOneRow(once, row, rules);
    RowKeeps(st, row, rules);
    ImportedIsBlocked(st, row, rules);
    if Lasts(st, row, rules) {
      BlockedCreatesNothing(once, row, rules);
    } else {
      if Misled(st, row) {
        MisledStays(st, row, rules);
      }
      ImportedIsBlocked(once, row, rules);
    }
  }

  /** A car that was booked under one VIN and is listed under another is booked by every run. */
  lemma {:induction false} PlateMisleads(row: Row, rules: Rules, vin: string)
    requires !Ignored(row, rules) && !DateFails(row, rules) && Field(row, JobNumber) == "" && Vin(row) != ""
    requires Field(row, VehiclePlate) != "" && vin != "" && vin != Vin(row)
    ensures var owner := Customer(0, Field(row, CustomerName), "", "", true);
      var st := Store([owner], [Vehicle(1, owner.id, vin, "", "", Field(row, VehiclePlate))], [], 2);
      Inv(st) && Import(Import(st, [row], rules).0, [row], rules).1.created != 0
  {
    var name, plate := Field(row, CustomerName), Field(row, VehiclePlate);
    var st := Store([Customer(0, name, "", "", true)], [Vehicle(1, 0, vin, "", "", plate)], [], 2);
    assert NameIs(name)(st.customers[0]) && PlateIs(plate, 0)(st.vehicles[0]) && !VinIs(Vin(row))(st.vehicles[0]);
    assert IndexWhere(VinIs(Vin(row)), st.vehicles) == 1;
    assert Misled(st, row);
    RerunOneExact(st, row, rules);
  }
}
