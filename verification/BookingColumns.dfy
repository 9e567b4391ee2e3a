/** The import told from the texts of a row: whom it finds, what it stores for whom it does not find,
    what it fills in, and what becomes of every row. */
module BookingColumns {
  import opened Wrappers
  import opened Sequences
  import opened Text
  import opened BookingImport
  import opened BookingProofs

  // ---- the texts of a row ----

  ghost predicate SpaceAround(s: string, i: nat, j: nat) {
    forall k :: 0 <= k < |s| && (k < i || j <= k) ==> IsSpace(s[k])
  }

  /** The text without the white space around it. */
  ghost predicate IsTrimmed(s: string, t: string) {
    exists i, j :: 0 <= i <= j <= |s| && t == s[i..j] && Stripped(IsSpace, t) && SpaceAround(s, i, j)
  }

  lemma {:induction false} FieldExact(row: Row, name: Target)
    ensures if name in row then IsTrimmed(row[name], Field(row, name)) else Field(row, name) == ""
  {
    if name in row {
      var i, j := StripSlice(IsSpace, row[name]);
      assert SpaceAround(row[name], i, j);
    }
  }

  /** A VIN is the text of its column in upper case, cut to 17 characters. */
  lemma {:induction false} VinExact(row: Row)
    ensures |Vin(row)| <= 17 && |Vin(row)| <= |Field(row, VehicleVin)|
    ensures |Field(row, VehicleVin)| <= 17 ==> |Vin(row)| == |Field(row, VehicleVin)|
    ensures forall i :: 0 <= i < |Vin(row)| ==>
      Vin(row)[i] == Upper(Field(row, VehicleVin)[i]) && !('a' <= Vin(row)[i] <= 'z')
    ensures VehicleVin !in row ==> Vin(row) == ""
  {
    if VehicleVin in row {
      assert NormalizeVin(row[VehicleVin]) == Take(17, UpperAll(Field(row, VehicleVin)));
    }
  }

  /** Make and model come from their columns; a make without a model is taken for a description of the
      model. */
  lemma {:induction false} MakeAndModel(row: Row)
    ensures var make, model := Field(row, VehicleMake), Field(row, VehicleModel);
      && (model != "" ==> MakeOf(row) == make && ModelOf(row) == model)
      && (model == "" ==> MakeOf(row) == "" && ModelOf(row) == make)
  {
  }

  // ---- matching ----

  ghost predicate IsFirst<T>(p: T -> bool, rows: seq<T>, k: nat) {
    k < |rows| && p(rows[k]) && forall j :: 0 <= j < k ==> !p(rows[j])
  }

  predicate SomeMatch<T>(p: T -> bool, rows: seq<T>) { exists k :: 0 <= k < |rows| && p(rows[k]) }

  lemma {:induction false} IndexIsFirst<T>(p: T -> bool, rows: seq<T>)
    ensures SomeMatch(p, rows) <==> IndexWhere(p, rows) < |rows|
    ensures SomeMatch(p, rows) ==> IsFirst(p, rows, IndexWhere(p, rows))
  {
    IndexWhereFirst(p, rows);
  }

  function Alike(wanted: string, column: Customer -> string): Customer -> bool {
    (c: Customer) => wanted != "" && c.active && column(c) == wanted
  }

  function Phone(): Customer -> string { (c: Customer) => c.phone }

  function Email(): Customer -> string { (c: Customer) => c.email }

  function Name(): Customer -> string { (c: Customer) => c.name }

  lemma {:induction false} AlikeFound(wanted: string, column: Customer -> string, p: Customer -> bool,
                                      customers: seq<Customer>)
    requires forall c :: p(c) <==> c.active && column(c) == wanted
    ensures var k := First(wanted, p, customers);
      if SomeMatch(Alike(wanted, column), customers)
      then k.Some? && IsFirst(Alike(wanted, column), customers, k.value) else k.None?
  {
    IndexIsFirst(p, customers);
    if wanted != "" {
      forall c ensures Alike(wanted, column)(c) == p(c) {
      }
    }
  }

  /** The customer of a row is the first active one with its phone, or else with its email, or else with
      its name; a blank column matches nobody. Otherwise a customer with these texts is added. */
  lemma {:induction false} CustomerExact(st: Store, row: Row)
    ensures var phone, email, name := Field(row, CustomerPhone), Field(row, CustomerEmail), Field(row, CustomerName);
      var (r, id) := EnsureCustomer(st, row);
      var byPhone, byEmail, byName := Alike(phone, Phone()), Alike(email, Email()), Alike(name, Name());
      var alike := if SomeMatch(byPhone, st.customers) then byPhone
                   else if SomeMatch(byEmail, st.customers) then byEmail else byName;
      if SomeMatch(alike, st.customers)
      then r == st && exists k: nat :: IsFirst(alike, st.customers, k) && id == st.customers[k].id
      else id == st.issued
           && r == st.(customers := st.customers + [Customer(id, name, email, phone, true)], issued := id + 1)
  {
    var phone, email, name := Field(row, CustomerPhone), Field(row, CustomerEmail), Field(row, CustomerName);
    AlikeFound(phone, Phone(), PhoneIs(phone), st.customers);
    AlikeFound(email, Email(), EmailIs(email), st.customers);
    AlikeFound(name, Name(), NameIs(name), st.customers);
  }

  function SameVin(vin: string): Vehicle -> bool { (v: Vehicle) => vin != "" && v.vin == vin }

  function SamePlate(plate: string, customer: Id): Vehicle -> bool {
    (v: Vehicle) => plate != "" && v.customer == customer && v.plate == plate
  }

  lemma {:induction false} VehicleFound(vehicles: seq<Vehicle>, row: Row, customer: Id)
    ensures var byVin, byPlate := SameVin(Vin(row)), SamePlate(Field(row, VehiclePlate), customer);
      var alike := if SomeMatch(byVin, vehicles) then byVin else byPlate;
      var k := FindVehicle(vehicles, row, customer);
      if SomeMatch(alike, vehicles) then k.Some? && IsFirst(alike, vehicles, k.value) else k.None?
  {
    var vin, plate := Vin(row), Field(row, VehiclePlate);
    IndexIsFirst(VinIs(vin), vehicles);
    IndexIsFirst(PlateIs(plate, customer), vehicles);
    if vin != "" {
      forall v ensures SameVin(vin)(v) == VinIs(vin)(v) {
      }
    }
    if plate != "" {
      forall v ensures SamePlate(plate, customer)(v) == PlateIs(plate, customer)(v) {
      }
    }
  }

  // ---- filling in ----

  function Filled(stored: string, given: string): string { if stored == "" then given else stored }

  /** The row has a model and no make, and the vehicle has one text stored as both. */
  predicate Heals(v: Vehicle, row: Row) {
    MakeOf(row) == "" && ModelOf(row) != "" && Trim(v.make) == Trim(v.model) != ""
  }

  /** A matched vehicle is filled in: only blank columns are written, except that a description stored
      twice is replaced; the owner changes together with another column, and not alone. */
  lemma {:induction false} RefreshedExact(v: Vehicle, row: Row, customer: Id)
    ensures var w := Refreshed(v, row, customer);
      && w.id == v.id
      && w.plate == Filled(v.plate, Field(row, VehiclePlate)) && w.vin == Filled(v.vin, Vin(row))
      && w.make == (if Heals(v, row) then "" else Filled(v.make, MakeOf(row)))
      && w.model == (if Heals(v, row) then ModelOf(row) else Filled(v.model, ModelOf(row)))
      && w.customer ==
         if (w.plate, w.vin, w.make, w.model) == (v.plate, v.vin, v.make, v.model) then v.customer else customer
  {
    assert Trim("") == "";
  }

  /** The vehicle of a row is the first with its VIN, or else the customer's first with its plate, filled
      in; otherwise a vehicle with its texts is added. */
  lemma {:induction false} VehicleExact(st: Store, row: Row, customer: Id)
    ensures var byVin, byPlate := SameVin(Vin(row)), SamePlate(Field(row, VehiclePlate), customer);
      var alike := if SomeMatch(byVin, st.vehicles) then byVin else byPlate;
      var (r, id) := EnsureVehicle(st, row, customer);
      if SomeMatch(alike, st.vehicles)
      then exists k: nat ::
             && IsFirst(alike, st.vehicles, k) && id == st.vehicles[k].id
             && r == st.(vehicles := st.vehicles[k := Refreshed(st.vehicles[k], row, customer)])
      else
        && id == st.issued
        && var v := Vehicle(id, customer, Vin(row), MakeOf(row), ModelOf(row), Field(row, VehiclePlate));
           r == st.(vehicles := st.vehicles + [v], issued := id + 1)
  {
    VehicleFound(st.vehicles, row, customer);
  }

  // ---- what becomes of a row ----

  function Numbered(number: string): Job -> bool { (j: Job) => number != "" && j.number == number }

  function Waiting(vehicle: Id): Job -> bool { (j: Job) => j.vehicle == vehicle && j.booked }

  /** The job number is taken, or the first vehicle with the VIN waits for a booking. */
  ghost predicate Known(st: Store, row: Row) {
    || SomeMatch(Numbered(Field(row, JobNumber)), st.jobs)
    || exists k: nat :: IsFirst(SameVin(Vin(row)), st.vehicles, k) && SomeMatch(Waiting(st.vehicles[k].id), st.jobs)
  }

  lemma {:induction false} NumberKnown(st: Store, number: string)
    ensures NumberTaken(st, number) <==> SomeMatch(Numbered(number), st.jobs)
  {
    IndexIsFirst(NumberIs(number), st.jobs);
    if number != "" {
      forall j ensures Numbered(number)(j) == NumberIs(number)(j) {
      }
    }
  }

  lemma {:induction false} VinKnown(st: Store, vin: string)
    ensures VinBooked(st, vin) <==>
      exists k: nat :: IsFirst(SameVin(vin), st.vehicles, k) && SomeMatch(Waiting(st.vehicles[k].id), st.jobs)
  {
    var k := IndexWhere(VinIs(vin), st.vehicles);
    IndexIsFirst(VinIs(vin), st.vehicles);
    if vin != "" {
      forall v ensures SameVin(vin)(v) == VinIs(vin)(v) {
      }
      if k < |st.vehicles| {
        IndexIsFirst(BookedFor(st.vehicles[k].id), st.jobs);
        assert IsFirst(SameVin(vin), st.vehicles, k);
        forall j ensures Waiting(st.vehicles[k].id)(j) == BookedFor(st.vehicles[k].id)(j) {
        }
      }
    }
  }

  /** A row whose booking is known is skipped, one whose date does not parse fails, and any other adds
      a booked job with its number for its customer and its vehicle. */
  lemma {:induction false} BookExact(st: Store, row: Row, customer: Id, vehicle: Id, rules: Rules)
    ensures Book(st, row, customer, vehicle, rules) ==
      if Known(st, row) then (st, Skipped)
      else if PromisedAt in row && row[PromisedAt] != "" && !rules.validDate(row[PromisedAt]) then (st, Failed)
      else
        var job := Job(st.issued, Field(row, JobNumber), customer, vehicle, true);
        (st.(jobs := st.jobs + [job], issued := st.issued + 1), Created)
  {
    NumberKnown(st, Field(row, JobNumber));
    VinKnown(st, Vin(row));
  }

  /** A row without a name, or with one that looks like a header in any case, is skipped and nothing is
      stored; any other row settles its customer, then its vehicle, then its job. */
  lemma {:induction false} RowExact(st: Store, row: Row, rules: Rules)
    ensures var name := Field(row, CustomerName);
      if name == "" || LowerAll(name) in rules.headerLike then ImportRow(st, row, rules) == (st, Skipped)
      else
        var (b, customer) := EnsureCustomer(st, row);
        var (c, vehicle) := EnsureVehicle(b, row, customer);
        ImportRow(st, row, rules) == Book(c, row, customer, vehicle, rules)
  {
  }

  // ---- the report ----

  /** What became of the row with a number, counted from one. */
  function OutcomeOf(step: (Store, Row) -> (Store, RowOutcome), st: Store, rows: seq<Row>, number: nat): RowOutcome
    requires 1 <= number <= |rows|
  {
    step(ImportFirst(step, st, rows, number - 1).0, rows[number - 1]).1
  }

  /** How many of the first rows came out so. */
  function HowMany(step: (Store, Row) -> (Store, RowOutcome), st: Store, rows: seq<Row>, outcome: RowOutcome,
                   n: nat): nat
    requires n <= |rows|
  {
    if n == 0 then 0
    else HowMany(step, st, rows, outcome, n - 1) + if OutcomeOf(step, st, rows, n) == outcome then 1 else 0
  }

  ghost predicate Reports(step: (Store, Row) -> (Store, RowOutcome), st: Store, rows: seq<Row>, n: nat, report: Report)
    requires n <= |rows|
  {
    && report.created == HowMany(step, st, rows, Created, n)
    && report.skipped == HowMany(step, st, rows, Skipped, n)
    && (forall e :: e in report.errors <==> 1 <= e <= n && OutcomeOf(step, st, rows, e) == Failed)
    && forall i, j :: 0 <= i < j < |report.errors| ==> report.errors[i] < report.errors[j]
  }

  lemma {:induction false} ReportFirst(step: (Store, Row) -> (Store, RowOutcome), st: Store, rows: seq<Row>, n: nat)
    requires n <= |rows|
    ensures Reports(step, st, rows, n, ImportFirst(step, st, rows, n).1)
  {
    if n == 0 {
    } else {
      ReportFirst(step, st, rows, n - 1);
      var before, after := ImportFirst(step, st, rows, n - 1).1, ImportFirst(step, st, rows, n).1;
      if OutcomeOf(step, st, rows, n) == Failed {
        assert after.errors == before.errors + [n];
        assert forall i :: 0 <= i < |before.errors| ==> before.errors[i] in before.errors;
      } else {
        assert after.errors == before.errors;
      }
    }
  }

  /** The report counts the created and the skipped rows, and lists the numbers of the failed ones in
      order. */
  lemma {:induction false} ReportExact(st: Store, rows: seq<Row>, rules: Rules)
    ensures Reports(Importer(rules), st, rows, |rows|, Import(st, rows, rules).1)
  {
    ReportFirst(Importer(rules), st, rows, |rows|);
  }
}
