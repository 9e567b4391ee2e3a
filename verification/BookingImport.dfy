/** Importing bookings from parsed rows: match or create a customer and a vehicle, then create a job
    unless the booking is already there. Rows are not transactions: what a skipped or failing row
    wrote about its customer and vehicle stays. */
module BookingImport {
  import opened Wrappers
  import opened Sequences
  import opened Text

  type Id = nat

  /** In these rows an empty text stands for null as well: the import never tells them apart. */
  datatype Customer = Customer(id: Id, name: string, email: string, phone: string, active: bool)

  datatype Vehicle = Vehicle(id: Id, customer: Id, vin: string, make: string, model: string, plate: string)

  datatype Job = Job(id: Id, number: string, customer: Id, vehicle: Id, booked: bool)

  /** The three tables; `issued` numbers the ids handed out so far. */
  datatype Store = Store(customers: seq<Customer>, vehicles: seq<Vehicle>, jobs: seq<Job>, issued: nat)

  /** The fields that a column can be mapped to. */
  datatype Target =
    | Ignore | CustomerName | CustomerEmail | CustomerPhone | VehicleMake | VehicleModel | VehiclePlate | VehicleVin
    | JobNumber | AdvisorCode | Concern | PromisedAt | DmsNumber | OtherField(name: string)

  type RawRow = map<string, string>

  type Row = map<Target, string>

  datatype Mapping = Mapping(source: string, target: Target)

  datatype RowOutcome = Created | Skipped | Failed

  /** `errors` holds the numbers of the failing rows, counted from one. */
  datatype Report = Report(total: nat, created: nat, skipped: nat, errors: seq<nat>)

  datatype Error = BadRequest

  /** What a run is configured with: the header-like names, and which texts parse as a date. */
  datatype Rules = Rules(headerLike: set<string>, validDate: string -> bool)

  const MAX_IMPORT_ROWS: nat := 1000
  const MAX_VIN: nat := 17

  const HEADER_LIKE_NAMES: set<string> := {
    "customer name", "customer", "name", "customer_name", "customername",
    "client name", "client", "contact name", "contact"
  }

  // ---- reading a row ----

  predicate Applies(raw: RawRow, m: Mapping) { m.target != Ignore && m.source in raw }

  /** The row after the first `n` mappings. */
  function Mapped(raw: RawRow, mappings: seq<Mapping>, n: nat): Row
    requires n <= |mappings|
  {
    if n == 0 then map[]
    else
      var before, m := Mapped(raw, mappings, n - 1), mappings[n - 1];
      if Applies(raw, m) then before[m.target := raw[m.source]] else before
  }

  function Field(row: Row, name: Target): string { if name in row then Trim(row[name]) else "" }

  function NormalizeVin(v: string): string { Take(MAX_VIN, UpperAll(Trim(v))) }

  function Vin(row: Row): string { if VehicleVin in row then NormalizeVin(row[VehicleVin]) else "" }

  /** A sheet with one description column gives a model and no make. */
  function MakeOf(row: Row): string { if Field(row, VehicleModel) == "" then "" else Field(row, VehicleMake) }

  function ModelOf(row: Row): string {
    if Field(row, VehicleModel) == "" then Field(row, VehicleMake) else Field(row, VehicleModel)
  }

  /** No customer name, or a header line. */
  predicate Ignored(row: Row, rules: Rules) {
    Field(row, CustomerName) == "" || LowerAll(Field(row, CustomerName)) in rules.headerLike
  }

  predicate DateFails(row: Row, rules: Rules) {
    PromisedAt in row && row[PromisedAt] != "" && !rules.validDate(row[PromisedAt])
  }

  // ---- customers and vehicles ----

  function PhoneIs(phone: string): Customer -> bool { (c: Customer) => c.phone == phone && c.active }

  function EmailIs(email: string): Customer -> bool { (c: Customer) => c.email == email && c.active }

  function NameIs(name: string): Customer -> bool { (c: Customer) => c.name == name && c.active }

  function VinIs(vin: string): Vehicle -> bool { (v: Vehicle) => v.vin == vin }

  function PlateIs(plate: string, customer: Id): Vehicle -> bool {
    (v: Vehicle) => v.plate == plate && v.customer == customer
  }

  function NumberIs(number: string): Job -> bool { (j: Job) => j.number == number }

  function BookedFor(vehicle: Id): Job -> bool { (j: Job) => j.vehicle == vehicle && j.booked }

  /** `findFirst`, when there is something to look for. */
  function First<T>(wanted: string, p: T -> bool, rows: seq<T>): Option<nat> {
    if wanted != "" && IndexWhere(p, rows) < |rows| then Some(IndexWhere(p, rows)) else None
  }

  /** By phone, then by email, then by name. */
  function FindCustomer(customers: seq<Customer>, row: Row): (k: Option<nat>)
    ensures k.Some? ==> k.value < |customers|
  {
    var phone, email, name := Field(row, CustomerPhone), Field(row, CustomerEmail), Field(row, CustomerName);
    if First(phone, PhoneIs(phone), customers).Some? then First(phone, PhoneIs(phone), customers)
    else if First(email, EmailIs(email), customers).Some? then First(email, EmailIs(email), customers)
    else First(name, NameIs(name), customers)
  }

  function EnsureCustomer(st: Store, row: Row): (r: (Store, Id))
  {
    var k := FindCustomer(st.customers, row);
    if k.Some? then (st, st.customers[k.value].id)
    else
      var c := Customer(st.issued, Field(row, CustomerName), Field(row, CustomerEmail), Field(row, CustomerPhone),
                        true);
      (st.(customers := st.customers + [c], issued := st.issued + 1), st.issued)
  }

  /** By VIN, then by the customer's plate. */
  function FindVehicle(vehicles: seq<Vehicle>, row: Row, customer: Id): (k: Option<nat>)
    ensures k.Some? ==> k.value < |vehicles|
  {
    var plate := Field(row, VehiclePlate);
    if First(Vin(row), VinIs(Vin(row)), vehicles).Some? then First(Vin(row), VinIs(Vin(row)), vehicles)
    else First(plate, PlateIs(plate, customer), vehicles)
  }

  /** Fill in what the vehicle lacks; a vehicle whose make repeats its model loses the make. The new
      owner is written only together with some other change. */
  function Refreshed(v: Vehicle, row: Row, customer: Id): Vehicle {
    var make, model, plate := MakeOf(row), ModelOf(row), Field(row, VehiclePlate);
    var duplicated := Trim(v.make) != "" && Trim(v.make) == Trim(v.model);
    var heals := make == "" && model != "" && duplicated;
    var setsMake, setsModel := make != "" && v.make == "", model != "" && v.model == "";
    var setsPlate, setsVin := plate != "" && v.plate == "", Vin(row) != "" && v.vin == "";
    if !heals && !setsMake && !setsModel && !setsPlate && !setsVin then v
    else v.(customer := customer,
            make := if heals then "" else if setsMake then make else v.make,
            model := if heals || setsModel then model else v.model,
            plate := if setsPlate then plate else v.plate,
            vin := if setsVin then Vin(row) else v.vin)
  }

  function EnsureVehicle(st: Store, row: Row, customer: Id): (Store, Id) {
    var k := FindVehicle(st.vehicles, row, customer);
    if k.Some? then
      (st.(vehicles := st.vehicles[k.value := Refreshed(st.vehicles[k.value], row, customer)]), st.vehicles[k.value].id)
    else
      var v := Vehicle(st.issued, customer, Vin(row), MakeOf(row), ModelOf(row), Field(row, VehiclePlate));
      (st.(vehicles := st.vehicles + [v], issued := st.issued + 1), st.issued)
  }

  // ---- bookings ----

  predicate NumberTaken(st: Store, number: string) {
    number != "" && IndexWhere(NumberIs(number), st.jobs) < |st.jobs|
  }

  /** The first vehicle with the VIN has a booking. */
  predicate VinBooked(st: Store, vin: string) {
    var k := IndexWhere(VinIs(vin), st.vehicles);
    vin != "" && k < |st.vehicles| && IndexWhere(BookedFor(st.vehicles[k].id), st.jobs) < |st.jobs|
  }

  /** Create the job unless the booking is there already or its date does not parse. */
  function Book(st: Store, row: Row, customer: Id, vehicle: Id, rules: Rules): (Store, RowOutcome) {
    if NumberTaken(st, Field(row, JobNumber)) || VinBooked(st, Vin(row)) then (st, Skipped)
    else if DateFails(row, rules) then (st, Failed)
    else
      var job := Job(st.issued, Field(row, JobNumber), customer, vehicle, true);
      (st.(jobs := st.jobs + [job], issued := st.issued + 1), Created)
  }

  function ImportRow(st: Store, row: Row, rules: Rules): (Store, RowOutcome) {
    if Ignored(row, rules) then (st, Skipped)
    else
      var (withCustomer, customer) := EnsureCustomer(st, row);
      var (withVehicle, vehicle) := EnsureVehicle(withCustomer, row, customer);
      Book(withVehicle, row, customer, vehicle, rules)
  }

  function Counted(r: Report, outcome: RowOutcome, row: nat): Report {
    match outcome
    case Created => r.(created := r.created + 1)
    case Skipped => r.(skipped := r.skipped + 1)
    case Failed => r.(errors := r.errors + [row])
  }

  /** One row as a step on the store. */
  function Importer(rules: Rules): (Store, Row) -> (Store, RowOutcome) {
    (st: Store, row: Row) => ImportRow(st, row, rules)
  }

  /** The store and the report after taking the step for the first `n` rows. */
  function ImportFirst(step: (Store, Row) -> (Store, RowOutcome), st: Store, rows: seq<Row>, n: nat): (Store, Report)
    requires n <= |rows|
    decreases n
  {
    if n == 0 then (st, Report(|rows|, 0, 0, []))
    else
      var (before, report) := ImportFirst(step, st, rows, n - 1);
      var (after, outcome) := step(before, rows[n - 1]);
      (after, Counted(report, outcome, n))
  }

  function Import(st: Store, rows: seq<Row>, rules: Rules): (Store, Report) {
    ImportFirst(Importer(rules), st, rows, |rows|)
  }

  // ---- the service ----

  class ImportService {
    const rules: Rules
    var customers: seq<Customer>
    var vehicles: seq<Vehicle>
    var jobs: seq<Job>
    var issued: nat

    function State(): Store
      reads this
    {
      Store(customers, vehicles, jobs, issued)
    }

    constructor (validDate: string -> bool)
      ensures State() == Store([], [], [], 0) && rules == Rules(HEADER_LIKE_NAMES, validDate)
    {
      rules := Rules(HEADER_LIKE_NAMES, validDate);
      customers, vehicles, jobs, issued := [], [], [], 0;
    }

    method MapRow(raw: RawRow, mappings: seq<Mapping>) returns (mapped: Row)
      ensures mapped == Mapped(raw, mappings, |mappings|)
    {
      mapped := map[];
      for i := 0 to |mappings|
        invariant mapped == Mapped(raw, mappings, i)
      {
        var m := mappings[i];
        if m.target == Ignore || m.source !in raw { continue; }
        mapped := mapped[m.target := raw[m.source]];
      }
    }

    method FindOrCreateCustomer(row: Row) returns (customer: Id)
      modifies this`customers, this`issued
      ensures (State(), customer) == EnsureCustomer(old(State()), row)
    {
      var k := FindCustomer(customers, row);
      if k.Some? { return customers[k.value].id; }
      customer := issued;
      customers := customers + [Customer(customer, Field(row, CustomerName), Field(row, CustomerEmail),
                                         Field(row, CustomerPhone), true)];
      issued := issued + 1;
    }

    method FindOrCreateVehicle(row: Row, customer: Id) returns (vehicle: Id)
      modifies this`vehicles, this`issued
      ensures (State(), vehicle) == EnsureVehicle(old(State()), row, customer)
    {
      var k := FindVehicle(vehicles, row, customer);
      if k.Some? {
        vehicle := vehicles[k.value].id;
        vehicles := vehicles[k.value := Refreshed(vehicles[k.value], row, customer)];
        return;
      }
      vehicle := issued;
      vehicles := vehicles + [Vehicle(vehicle, customer, Vin(row), MakeOf(row), ModelOf(row),
                                      Field(row, VehiclePlate))];
      issued := issued + 1;
    }

    method BookJob(row: Row, customer: Id, vehicle: Id) returns (outcome: RowOutcome)
      modifies this`jobs, this`issued
      ensures (State(), outcome) == Book(old(State()), row, customer, vehicle, rules)
    {
      var number := Field(row, JobNumber);
      if number != "" && IndexWhere(NumberIs(number), jobs) < |jobs| { return Skipped; }
      var vinToCheck := Vin(row);
      if vinToCheck != "" {
        var k := IndexWhere(VinIs(vinToCheck), vehicles);
        if k < |vehicles| && IndexWhere(BookedFor(vehicles[k].id), jobs) < |jobs| { return Skipped; }
      }
      if DateFails(row, rules) { return Failed; }
      jobs := jobs + [Job(issued, number, customer, vehicle, true)];
      issued := issued + 1;
      return Created;
    }

    method ImportOne(row: Row) returns (outcome: RowOutcome)
      modifies this
      ensures (State(), outcome) == ImportRow(old(State()), row, rules)
    {
      var name := Field(row, CustomerName);
      if name == "" { return Skipped; }
      if LowerAll(name) in rules.headerLike { return Skipped; }
      var customer := FindOrCreateCustomer(row);
      var vehicle := FindOrCreateVehicle(row, customer);
      outcome := BookJob(row, customer, vehicle);
    }

    /** At most a thousand rows; then one row after the other, counting. */
    method RunImport(rawRows: seq<RawRow>, mappings: seq<Mapping>) returns (r: Result<Report, Error>)
      modifies this
      ensures |rawRows| > 1000 || mappings == [] ==> r == Failure(BadRequest) && State() == old(State())
      ensures |rawRows| <= 1000 && mappings != [] ==>
        r.Success? && (State(), r.value) == Import(old(State()), MappedRows(rawRows, mappings), rules)
    {
      if |rawRows| > MAX_IMPORT_ROWS { return Failure(BadRequest); }
      if mappings == [] { return Failure(BadRequest); }
      var report := ImportRows(rawRows, mappings);
      return Success(report);
    }

    method ImportRows(rawRows: seq<RawRow>, mappings: seq<Mapping>) returns (report: Report)
      modifies this
      ensures (State(), report) == Import(old(State()), MappedRows(rawRows, mappings), rules)
    {
      report := Report(|rawRows|, 0, 0, []);
      ghost var rows := MappedRows(rawRows, mappings);
      for i := 0 to |rawRows|
        invariant (State(), report) == ImportFirst(Importer(rules), old(State()), rows, i)
      {
        var row := MapRow(rawRows[i], mappings);
        NextRow(old(State()), rows, rules, i);
        var outcome := ImportOne(row);
        report := CountRow(report, outcome, i + 1);
      }
    }

    method CountRow(report: Report, outcome: RowOutcome, row: nat) returns (r: Report)
      ensures r == Counted(report, outcome, row)
    {
      r := report;
      if outcome == Created {
        r := r.(created := r.created + 1);
      } else if outcome == Skipped {
        r := r.(skipped := r.skipped + 1);
      } else {
        r := r.(errors := r.errors + [row]);
      }
    }
  }

  /** One more row takes one more step. */
  lemma {:induction false} NextRow(st: Store, rows: seq<Row>, rules: Rules, n: nat)
    ensures n < |rows| ==>
      var (before, report) := ImportFirst(Importer(rules), st, rows, n);
      var (after, outcome) := ImportRow(before, rows[n], rules);
      ImportFirst(Importer(rules), st, rows, n + 1) == (after, Counted(report, outcome, n + 1))
  {
  }

  function MappedRows(rawRows: seq<RawRow>, mappings: seq<Mapping>): (rows: seq<Row>)
    ensures |rows| == |rawRows|
    ensures forall i :: 0 <= i < |rows| ==> rows[i] == Mapped(rawRows[i], mappings, |mappings|)
  {
    seq(|rawRows|, i requires 0 <= i < |rawRows| => Mapped(rawRows[i], mappings, |mappings|))
  }
}
