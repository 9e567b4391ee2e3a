/** Estimate lines, portal links and customer decisions: the tables that estimates.service.ts and
    authorisation.service.ts share, and every operation that writes them. */
module Quotes {
  import opened Wrappers
  import opened Sequences

  type Id = string

  datatype LineType = Labour | PartLine | Sublet

  datatype Line = Line(
    id: Id, job: Option<Id>, response: Option<Id>, group: Option<Id>, concern: Option<Id>,
    kind: LineType, description: string, partNumber: Option<string>,
    quantity: real, unitPrice: real, discountPct: real, taxRatePct: Option<real>,
    lineTotal: real, taxAmount: real, recommended: bool, sortOrder: Option<nat>, addedBy: Id)

  /** A line as a client sends it; an absent field is `None`. In a bulk save an empty text is absent too. */
  datatype Incoming = Incoming(
    id: Option<Id>, kind: Option<LineType>, description: Option<string>, partNumber: Option<string>,
    quantity: Option<real>, unitPrice: Option<real>, discountPct: Option<real>, taxRatePct: Option<real>,
    recommended: Option<bool>, response: Option<Id>, group: Option<Id>, concern: Option<Id>)

  datatype Group = Group(id: Id, job: Id, title: string)

  datatype Token = Token(id: Id, job: Id, expiresAt: Option<int>, revoked: bool)

  datatype Choice = Approved | Declined | Deferred

  datatype Decision = Decision(token: Id, line: Id, choice: Choice, decidedAt: int)

  datatype FollowUp = FollowUp(job: Id, line: Id, value: real)

  datatype Edit = Edit(line: Id, snapshot: Line)

  /** `concerns` gives the job of each concern; the other fields are tables in storage order. */
  datatype Quotes = Quotes(
    concerns: map<Id, Id>, lines: seq<Line>, groups: seq<Group>, tokens: seq<Token>,
    decisions: seq<Decision>, deferred: seq<FollowUp>, history: seq<Edit>)

  datatype Error = NotFound | BadRequest | UniqueViolation | ForeignKeyViolation

  type Outcome = Result<Quotes, Error>

  // ---- row predicates and lookups ----

  function LineIs(id: Id): Line -> bool { (l: Line) => l.id == id }

  function LineIsNot(id: Id): Line -> bool { (l: Line) => l.id != id }

  function OnJob(job: Id): Line -> bool { (l: Line) => l.job == Some(job) }

  function GroupIs(id: Id): Group -> bool { (g: Group) => g.id == id }

  function TokenIs(id: Id): Token -> bool { (t: Token) => t.id == id }

  function DecidesLine(line: Id): Decision -> bool { (d: Decision) => d.line == line }

  function DecidesBy(token: Id, line: Id): Decision -> bool { (d: Decision) => d.token == token && d.line == line }

  function FollowsUp(job: Id, line: Id): FollowUp -> bool { (f: FollowUp) => f.job == job && f.line == line }

  function FollowsLine(line: Id): FollowUp -> bool { (f: FollowUp) => f.line == line }

  function EditsLine(line: Id): Edit -> bool { (e: Edit) => e.line == line }

  predicate Any<T>(p: T -> bool, s: seq<T>) { IndexWhere(p, s) < |s| }

  function LineAt(lines: seq<Line>, id: Id): Option<Line> {
    var k := IndexWhere(LineIs(id), lines);
    if k < |lines| then Some(lines[k]) else None
  }

  function TokenJob(tokens: seq<Token>, id: Id): Option<Id> {
    var k := IndexWhere(TokenIs(id), tokens);
    if k < |tokens| then Some(tokens[k].job) else None
  }

  /** Some row of another table points at the line; deleting it would break a foreign key. */
  predicate Referenced(q: Quotes, line: Id) {
    Any(DecidesLine(line), q.decisions) || Any(FollowsLine(line), q.deferred) || Any(EditsLine(line), q.history)
  }

  // ---- money ----

  function LineTotal(quantity: real, unitPrice: real, discountPct: real): real {
    quantity * unitPrice * (1.0 - discountPct / 100.0)
  }

  function TaxAmount(lineTotal: real, taxRatePct: real): real { lineTotal * (taxRatePct / 100.0) }

  function Or<T>(o: Option<T>, default: T): T { if o.Some? then o.value else default }

  // ---- estimates.service.ts ----

  function CreateLine(q: Quotes, id: Id, job: Id, dto: Incoming, user: Id, defaultTax: real): Outcome {
    var quantity, unitPrice, discount := Or(dto.quantity, 1.0), Or(dto.unitPrice, 0.0), Or(dto.discountPct, 0.0);
    var taxRate := Or(dto.taxRatePct, defaultTax);
    var total := LineTotal(quantity, unitPrice, discount);
    if dto.group.Some? && !Any(GroupIs(dto.group.value), q.groups) then Failure(NotFound)
    else if Any(LineIs(id), q.lines) then Failure(UniqueViolation)
    else Success(q.(lines := q.lines + [Line(id, Some(job), dto.response, dto.group, dto.concern,
                                             Or(dto.kind, Labour), Or(dto.description, ""), dto.partNumber,
                                             quantity, unitPrice, discount, Some(taxRate),
                                             total, TaxAmount(total, taxRate),
                                             Or(dto.recommended, dto.response.Some?), None, user)]))
  }

  /** The line after a patch: present fields replace stored ones and the totals are recomputed. */
  function Patched(l: Line, dto: Incoming): Line {
    var quantity, unitPrice := Or(dto.quantity, l.quantity), Or(dto.unitPrice, l.unitPrice);
    var discount := Or(dto.discountPct, l.discountPct);
    var taxRate := if dto.taxRatePct.Some? then dto.taxRatePct else l.taxRatePct;
    var total := LineTotal(quantity, unitPrice, discount);
    l.(description := Or(dto.description, l.description),
       partNumber := if dto.partNumber.Some? then dto.partNumber else l.partNumber,
       quantity := quantity, unitPrice := unitPrice, discountPct := discount, taxRatePct := taxRate,
       group := if dto.group.Some? then dto.group else l.group,
       concern := if dto.concern.Some? then dto.concern else l.concern,
       recommended := Or(dto.recommended, l.recommended),
       lineTotal := total, taxAmount := TaxAmount(total, Or(taxRate, 0.0)))
  }

  /** The old line is kept as a history row before it is overwritten. */
  function UpdateLine(q: Quotes, id: Id, dto: Incoming): Outcome {
    var k := IndexWhere(LineIs(id), q.lines);
    if k == |q.lines| then Failure(NotFound)
    else Success(q.(history := q.history + [Edit(id, q.lines[k])],
                    lines := q.lines[k := Patched(q.lines[k], dto)]))
  }

  /** `remove` counts nothing itself; the foreign keys of the schema refuse a referenced line. */
  function RemoveLine(q: Quotes, id: Id): Outcome {
    if !Any(LineIs(id), q.lines) then Failure(NotFound)
    else if Referenced(q, id) then Failure(ForeignKeyViolation)
    else Success(q.(lines := Keep(LineIsNot(id), q.lines)))
  }

  // ---- bulkReplace ----

  /** A new line takes a positive incoming rate or else the default; an existing one keeps whatever
      it is sent, zero included, and its stored rate when nothing is sent. */
  function BulkTaxRate(l: Incoming, existing: Option<Line>, defaultTax: real): real {
    match existing
    case Some(old_) => Or(l.taxRatePct, Or(old_.taxRatePct, defaultTax))
    case None => if l.taxRatePct.Some? && l.taxRatePct.value > 0.0 then l.taxRatePct.value else defaultTax
  }

  /** The row that an incoming line at position `i` is saved as. */
  function Priced(job: Id, id: Id, l: Incoming, i: nat, existing: Option<Line>, user: Id, defaultTax: real): Line {
    var quantity, unitPrice, discount := Or(l.quantity, 1.0), Or(l.unitPrice, 0.0), Or(l.discountPct, 0.0);
    var taxRate := BulkTaxRate(l, existing, defaultTax);
    var total := LineTotal(quantity, unitPrice, discount);
    Line(id, Some(job), l.response, l.group, l.concern, Or(l.kind, Labour), Or(l.description, ""), l.partNumber,
         quantity, unitPrice, discount, Some(taxRate), total, TaxAmount(total, taxRate),
         l.response.Some? || Or(l.recommended, false), Some(i), user)
  }

  /** A bulk save: the job, the list, the supply of new ids, the user and the workshop's default rate. */
  datatype Save = Save(job: Id, incoming: seq<Incoming>, newId: nat -> Id, user: Id, defaultTax: real)

  function SaveId(s: Save, i: nat): Id
    requires i < |s.incoming|
  {
    Or(s.incoming[i].id, s.newId(i))
  }

  function ExistingFor(existing: seq<Line>, s: Save, i: nat): Option<Line>
    requires i < |s.incoming|
  {
    if s.incoming[i].id.Some? then LineAt(existing, s.incoming[i].id.value) else None
  }

  function Row(existing: seq<Line>, s: Save, i: nat): Line
    requires i < |s.incoming|
  {
    Priced(s.job, SaveId(s, i), s.incoming[i], i, ExistingFor(existing, s, i), s.user, s.defaultTax)
  }

  /** Update the row in place when its id was on the job, create it otherwise. */
  function SaveOne(lines: seq<Line>, existing: seq<Line>, s: Save, i: nat): Result<seq<Line>, Error>
    requires i < |s.incoming|
  {
    var k := IndexWhere(LineIs(SaveId(s, i)), lines);
    if ExistingFor(existing, s, i).Some? then
      if k == |lines| then Failure(NotFound) else Success(lines[k := Row(existing, s, i)])
    else if k < |lines| then Failure(UniqueViolation)
    else Success(lines + [Row(existing, s, i)])
  }

  function SaveFrom(lines: seq<Line>, existing: seq<Line>, s: Save, i: nat): Result<seq<Line>, Error>
    requires i <= |s.incoming|
    decreases |s.incoming| - i
  {
    if i == |s.incoming| then Success(lines)
    else
      var one := SaveOne(lines, existing, s, i);
      if one.Failure? then one else SaveFrom(one.value, existing, s, i + 1)
  }

  /** Groups that the list names and nobody has created yet. */
  function EnsureGroups(groups: seq<Group>, job: Id, incoming: seq<Incoming>): seq<Group>
    decreases incoming
  {
    if incoming == [] then groups
    else
      var g := incoming[0].group;
      var missing := g.Some? && !Any(GroupIs(g.value), groups);
      EnsureGroups(if missing then groups + [Group(g.value, job, "New group")] else groups, job, incoming[1..])
  }

  function GivenIds(incoming: seq<Incoming>): set<Id> {
    set i | 0 <= i < |incoming| && incoming[i].id.Some? :: incoming[i].id.value
  }

  function Stale(incoming: seq<Incoming>): Line -> bool { (l: Line) => l.id !in GivenIds(incoming) }

  function Detached(l: Line, position: nat): Line {
    l.(job := None, response := None, group := None, concern := None, sortOrder := Some(position))
  }

  /** Referenced stale lines leave the job and move behind the active ones; the rest are deleted. */
  function RetireAll(q: Quotes, lines: seq<Line>, stale: seq<Line>, position: nat): seq<Line>
    decreases stale
  {
    if stale == [] then lines
    else
      var k := IndexWhere(LineIs(stale[0].id), lines);
      if Referenced(q, stale[0].id) then
        RetireAll(q, if k < |lines| then lines[k := Detached(lines[k], position)] else lines, stale[1..], position + 1)
      else RetireAll(q, Keep(LineIsNot(stale[0].id), lines), stale[1..], position)
  }

  function BulkReplace(q: Quotes, s: Save): Outcome {
    var existing := Keep(OnJob(s.job), q.lines);
    var saved := SaveFrom(q.lines, existing, s, 0);
    if saved.Failure? then Failure(saved.error)
    else
      Success(q.(groups := EnsureGroups(q.groups, s.job, s.incoming),
                 lines := RetireAll(q, saved.value, Keep(Stale(s.incoming), existing), |s.incoming|)))
  }

  // ---- the other services that write lines ----

  function MapLines(f: Line -> Line, lines: seq<Line>): (r: seq<Line>)
    ensures |r| == |lines| && forall i :: 0 <= i < |r| ==> r[i] == f(lines[i])
  {
    seq(|lines|, i requires 0 <= i < |lines| => f(lines[i]))
  }

  function WithoutConcern(concern: Id): Line -> Line {
    (l: Line) => if l.concern == Some(concern) then l.(concern := None) else l
  }

  function WithoutGroup(group: Id): Line -> Line {
    (l: Line) => if l.group == Some(group) then l.(group := None) else l
  }

  function GroupIsNot(id: Id): Group -> bool { (g: Group) => g.id != id }

  /** Deleting a concern takes it off every line that names it, detached ones included. */
  function RemoveConcern(q: Quotes, job: Id, concern: Id): Outcome {
    if concern !in q.concerns || q.concerns[concern] != job then Failure(NotFound)
    else Success(q.(concerns := q.concerns - {concern}, lines := MapLines(WithoutConcern(concern), q.lines)))
  }

  function DeleteGroup(q: Quotes, group: Id): Outcome {
    if !Any(GroupIs(group), q.groups) then Failure(NotFound)
    else Success(q.(groups := Keep(GroupIsNot(group), q.groups), lines := MapLines(WithoutGroup(group), q.lines)))
  }

  /** `reserveForJob` on a line of the job: a part line joins the concern if it has none, unless a job
      part has the line already, which `linked` says. */
  function LinkPart(q: Quotes, line: Id, job: Id, concern: Id, linked: bool): Outcome {
    var k := IndexWhere(LineIs(line), q.lines);
    if concern !in q.concerns || q.concerns[concern] != job then Failure(BadRequest)
    else if k == |q.lines| || q.lines[k].job != Some(job) || q.lines[k].kind != PartLine then Failure(BadRequest)
    else if (q.lines[k].concern.Some? && q.lines[k].concern != Some(concern)) || linked then Failure(BadRequest)
    else Success(q.(lines := q.lines[k := q.lines[k].(concern := Some(concern))]))
  }

  /** `reserveForJob` without a line makes one for the part. */
  function AddPartLine(q: Quotes, id: Id, job: Id, concern: Id, name: string, number: Option<string>,
                       quantity: real, price: real, defaultTax: real, user: Id): Outcome {
    var total := quantity * price;
    if concern !in q.concerns || q.concerns[concern] != job then Failure(BadRequest)
    else if Any(LineIs(id), q.lines) then Failure(UniqueViolation)
    else
      var line := Line(id, Some(job), None, None, Some(concern), PartLine, name, number, quantity, price, 0.0,
                       Some(defaultTax), total, TaxAmount(total, defaultTax), false, None, user);
      Success(q.(lines := q.lines + [line]))
  }

  /** Booking deferred work copies the line to a new job. */
  function BookDeferred(q: Quotes, line: Id, id: Id, newJob: Id, user: Id): Outcome {
    var source := LineAt(q.lines, line);
    if !Any(FollowsLine(line), q.deferred) then Failure(NotFound)
    else if source.None? then Success(q)
    else if Any(LineIs(id), q.lines) then Failure(UniqueViolation)
    else
      var copy := source.value.(id := id, job := Some(newJob), response := None, group := None, concern := None,
                                recommended := false, sortOrder := None, addedBy := user);
      Success(q.(lines := q.lines + [copy]))
  }

  // ---- authorisation.service.ts ----

  /** `requestAuthorisation` and `releasePortalUpdate` each issue a new link for the job. */
  function IssueToken(q: Quotes, id: Id, job: Id, jobExists: bool, expiresAt: int, needsLines: bool): Outcome {
    if !jobExists then Failure(NotFound)
    else if needsLines && Keep(OnJob(job), q.lines) == [] then Failure(BadRequest)
    else if Any(TokenIs(id), q.tokens) then Failure(UniqueViolation)
    else Success(q.(tokens := q.tokens + [Token(id, job, Some(expiresAt), false)]))
  }

  datatype Item = Item(line: Id, choice: Choice)

  /** Record one decision, and a follow-up the first time a job's line is declined or deferred. */
  function RecordOne(q: Quotes, token: Token, item: Item, now: int): Outcome {
    if Any(DecidesBy(token.id, item.line), q.decisions) then Failure(UniqueViolation)
    else
      var decided := q.(decisions := q.decisions + [Decision(token.id, item.line, item.choice, now)]);
      if item.choice == Approved || Any(FollowsUp(token.job, item.line), q.deferred) then Success(decided)
      else
        var line := LineAt(q.lines, item.line);
        Success(decided.(deferred := q.deferred +
                         [FollowUp(token.job, item.line, if line.Some? then line.value.lineTotal else 0.0)]))
  }

  function RecordAll(q: Quotes, token: Token, items: seq<Item>, now: int): Outcome
    decreases items
  {
    if items == [] then Success(q)
    else
      var one := RecordOne(q, token, items[0], now);
      if one.Failure? then one else RecordAll(one.value, token, items[1..], now)
  }

  predicate LineAllowed(q: Quotes, job: Id, line: Id) {
    exists k :: 0 <= k < |q.lines| && q.lines[k].id == line && q.lines[k].job == Some(job)
  }

  /** Some link of the job already carries a decision on the line. */
  predicate DecidedOnJob(q: Quotes, job: Id, line: Id) {
    exists k :: 0 <= k < |q.decisions| && q.decisions[k].line == line &&
      TokenJob(q.tokens, q.decisions[k].token) == Some(job)
  }

  function Decide(q: Quotes, tokenId: Id, items: seq<Item>, now: int): Outcome {
    var k := IndexWhere(TokenIs(tokenId), q.tokens);
    if k == |q.tokens| then Failure(NotFound)
    else
      var token := q.tokens[k];
      if token.revoked || (token.expiresAt.Some? && token.expiresAt.value < now) then Failure(BadRequest)
      else if items == [] then Failure(BadRequest)
      else if exists i :: 0 <= i < |items| && !LineAllowed(q, token.job, items[i].line) then Failure(BadRequest)
      else if exists i :: 0 <= i < |items| && DecidedOnJob(q, token.job, items[i].line) then Failure(BadRequest)
      else RecordAll(q, token, items, now)
  }

  function ConcernLines(lines: seq<Line>, concern: Id): set<Id> {
    set k | 0 <= k < |lines| && lines[k].concern == Some(concern) :: lines[k].id
  }

  function NotOnLines(ids: set<Id>): Decision -> bool { (d: Decision) => d.line !in ids }

  function ResetConcern(q: Quotes, job: Id, concern: Id): Outcome {
    if concern !in q.concerns || q.concerns[concern] != job then Failure(NotFound)
    else Success(q.(decisions := Keep(NotOnLines(ConcernLines(q.lines, concern)), q.decisions)))
  }

  // ---- runs ----

  datatype Call =
    | Create(id: Id, job: Id, dto: Incoming, user: Id, defaultTax: real)
    | Update(id: Id, dto: Incoming)
    | Remove(id: Id)
    | Bulk(save: Save)
    | DropConcern(job: Id, concern: Id)
    | DropGroup(id: Id)
    | LinkJobPart(line: Id, job: Id, concern: Id, linked: bool)
    | AddJobPart(id: Id, job: Id, concern: Id, name: string, number: Option<string>,
                 quantity: real, price: real, defaultTax: real, user: Id)
    | BookFollowUp(line: Id, id: Id, newJob: Id, user: Id)
    | Issue(id: Id, job: Id, jobExists: bool, expiresAt: int, needsLines: bool)
    | Submit(token: Id, items: seq<Item>, now: int)
    | Reset(job: Id, concern: Id)

  function Apply(q: Quotes, call: Call): Outcome {
    match call
    case Create(id, job, dto, user, defaultTax) => CreateLine(q, id, job, dto, user, defaultTax)
    case Update(id, dto) => UpdateLine(q, id, dto)
    case Remove(id) => RemoveLine(q, id)
    case Bulk(save) => BulkReplace(q, save)
    case DropConcern(job, concern) => RemoveConcern(q, job, concern)
    case DropGroup(id) => DeleteGroup(q, id)
    case LinkJobPart(line, job, concern, linked) => LinkPart(q, line, job, concern, linked)
    case AddJobPart(id, job, concern, name, number, quantity, price, defaultTax, user) =>
      AddPartLine(q, id, job, concern, name, number, quantity, price, defaultTax, user)
    case BookFollowUp(line, id, newJob, user) => BookDeferred(q, line, id, newJob, user)
    case Issue(id, job, jobExists, expiresAt, needsLines) => IssueToken(q, id, job, jobExists, expiresAt, needsLines)
    case Submit(token, items, now) => Decide(q, token, items, now)
    case Reset(job, concern) => ResetConcern(q, job, concern)
  }

  function Step(q: Quotes, call: Call): Quotes {
    var outcome := Apply(q, call);
    if outcome.Success? then outcome.value else q
  }

  function Run(q: Quotes, calls: seq<Call>): Quotes
    decreases calls
  {
    if calls == [] then q else Run(Step(q, calls[0]), calls[1..])
  }
}
