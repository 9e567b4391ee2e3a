/** What is stored of what a client sends: the columns of every line that is written, the groups,
    follow-ups and links that come with it, and which calls are accepted. */
module QuoteColumns {
  import opened Wrappers
  import opened Sequences
  import opened Quotes
  import opened QuoteBulk
  import QuoteProtocol

  // ---- a new line ----

  function Sent<T>(o: Option<T>, otherwise: T): T { match o case Some(value) => value case None => otherwise }

  /** The columns that a client sends are stored as sent, or with their defaults. */
  predicate StoredAs(l: Line, dto: Incoming) {
    && l.quantity == Sent(dto.quantity, 1.0)
    && l.unitPrice == Sent(dto.unitPrice, 0.0)
    && l.discountPct == Sent(dto.discountPct, 0.0)
    && l.kind == Sent(dto.kind, Labour)
    && l.description == Sent(dto.description, "")
    && l.partNumber == dto.partNumber
    && l.response == dto.response && l.group == dto.group && l.concern == dto.concern
  }

  predicate HasGroup(groups: seq<Group>, id: Id) { exists g :: g in groups && g.id == id }

  lemma {:induction false} GroupFound(groups: seq<Group>, id: Id)
    ensures Any(GroupIs(id), groups) <==> HasGroup(groups, id)
  {
    IndexWhereFirst(GroupIs(id), groups);
    if g :| g in groups && g.id == id {
      var i :| 0 <= i < |groups| && groups[i] == g;
      assert GroupIs(id)(groups[i]);
    }
  }

  /** A line of a group that exists, under a free id, is added at the end. */
  lemma {:induction false} CreateWritten(q: Quotes, id: Id, job: Id, dto: Incoming, user: Id, defaultTax: real)
    ensures var r := CreateLine(q, id, job, dto, user, defaultTax);
      && (r.Success? <==> LineAt(q.lines, id).None? && (dto.group.Some? ==> HasGroup(q.groups, dto.group.value)))
      && (r.Success? ==>
            && |r.value.lines| == |q.lines| + 1
            && var l := r.value.lines[|q.lines|];
               && r.value == q.(lines := q.lines + [l])
               && l.id == id && l.job == Some(job) && l.addedBy == user && l.sortOrder.None?
               && StoredAs(l, dto) && l.taxRatePct == Some(Sent(dto.taxRatePct, defaultTax))
               && l.recommended == Sent(dto.recommended, dto.response.Some?))
  {
    if dto.group.Some? {
      GroupFound(q.groups, dto.group.value);
    }
  }

  // ---- a patched line ----

  /** The columns of a patch replace those stored; the others stay, and the old line goes to the history. */
  lemma {:induction false} UpdateWritten(q: Quotes, id: Id, dto: Incoming)
    ensures var r := UpdateLine(q, id, dto);
      && (r.Success? <==> LineAt(q.lines, id).Some?)
      && (r.Success? ==>
            var k, old_ := IndexWhere(LineIs(id), q.lines), LineAt(q.lines, id).value;
            && k < |q.lines| == |r.value.lines|
            && var l := r.value.lines[k];
               && r.value == q.(lines := q.lines[k := l], history := q.history + [Edit(id, old_)])
               && l.quantity == Sent(dto.quantity, old_.quantity) && l.unitPrice == Sent(dto.unitPrice, old_.unitPrice)
               && l.discountPct == Sent(dto.discountPct, old_.discountPct)
               && l.taxRatePct == (if dto.taxRatePct.Some? then dto.taxRatePct else old_.taxRatePct)
               && l.description == Sent(dto.description, old_.description)
               && l.partNumber == (if dto.partNumber.Some? then dto.partNumber else old_.partNumber)
               && l.recommended == Sent(dto.recommended, old_.recommended)
               && l.group == (if dto.group.Some? then dto.group else old_.group)
               && l.concern == (if dto.concern.Some? then dto.concern else old_.concern)
               && l.id == id && l.job == old_.job && l.response == old_.response && l.kind == old_.kind
               && l.sortOrder == old_.sortOrder && l.addedBy == old_.addedBy)
  {
  }

  predicate Pointed(q: Quotes, line: Id) {
    || (exists d :: d in q.decisions && d.line == line)
    || (exists f :: f in q.deferred && f.line == line)
    || (exists e :: e in q.history && e.line == line)
  }

  lemma {:induction false} AnyExact<T>(p: T -> bool, s: seq<T>)
    ensures Any(p, s) <==> exists x :: x in s && p(x)
  {
    IndexWhereFirst(p, s);
    if x :| x in s && p(x) {
      var i :| 0 <= i < |s| && s[i] == x;
    }
    if IndexWhere(p, s) < |s| {
      assert s[IndexWhere(p, s)] in s;
    }
  }

  lemma {:induction false} PointedExact(q: Quotes, line: Id)
    ensures Referenced(q, line) <==> Pointed(q, line)
  {
    AnyExact(DecidesLine(line), q.decisions);
    AnyExact(FollowsLine(line), q.deferred);
    AnyExact(EditsLine(line), q.history);
  }

  /** Only a line that nothing refers to is removed, with every row of its id. */
  lemma {:induction false} RemoveWritten(q: Quotes, id: Id)
    ensures var r := RemoveLine(q, id);
      && (r.Success? <==> LineAt(q.lines, id).Some? && !Pointed(q, id))
      && (r.Success? ==> r.value == q.(lines := r.value.lines))
      && (r.Success? ==> forall l :: l in r.value.lines <==> l in q.lines && l.id != id)
  {
    PointedExact(q, id);
    forall l ensures l in Keep(LineIsNot(id), q.lines) <==> l in q.lines && l.id != id {
      KeepMember(LineIsNot(id), q.lines, l);
    }
  }

  // ---- a bulk save ----

  /** The id under which the list's line `i` is saved. */
  function IdOf(s: Save, i: nat): Id
    requires i < |s.incoming|
  {
    match s.incoming[i].id case Some(id) => id case None => s.newId(i)
  }

  /** The line of the job that the list's line `i` replaces. */
  function Replaced(q: Quotes, s: Save, i: nat): Option<Line>
    requires i < |s.incoming|
  {
    if s.incoming[i].id.None? then None else LineAt(Keep(OnJob(s.job), q.lines), s.incoming[i].id.value)
  }

  /** A new line takes a positive rate that is sent and the default otherwise; an old one takes what is
      sent, and keeps what it has when nothing is. */
  function RateOf(q: Quotes, s: Save, i: nat): real
    requires i < |s.incoming|
  {
    var sent, old_ := s.incoming[i].taxRatePct, Replaced(q, s, i);
    if old_.None? then if sent.Some? && sent.value > 0.0 then sent.value else s.defaultTax
    else if sent.Some? then sent.value
    else if old_.value.taxRatePct.Some? then old_.value.taxRatePct.value
    else s.defaultTax
  }

  /** After a save each line of the list is found under its id, with the columns that were sent. */
  lemma {:induction false} BulkColumns(q: Quotes, s: Save, i: nat)
    requires Distinct(q.lines) && DistinctSaveIds(s) && i < |s.incoming| && BulkReplace(q, s).Success?
    ensures var found, dto := LineAt(BulkReplace(q, s).value.lines, IdOf(s, i)), s.incoming[i];
      && found.Some?
      && var l := found.value;
         && l.id == IdOf(s, i) && l.job == Some(s.job) && l.sortOrder == Some(i) && l.addedBy == s.user
         && StoredAs(l, dto) && l.taxRatePct == Some(RateOf(q, s, i))
         && (l.recommended <==> dto.response.Some? || dto.recommended == Some(true))
  {
    BulkExact(q, s);
    assert LineAt(BulkReplace(q, s).value.lines, SaveId(s, i)) == Some(Row(Existing(q, s), s, i));
  }

  function MissingFrom(groups: seq<Group>, incoming: seq<Incoming>): set<Id> {
    set i | 0 <= i < |incoming| && incoming[i].group.Some? && !HasGroup(groups, incoming[i].group.value)
      :: incoming[i].group.value
  }

  /** The named groups that do not exist. */
  function Missing(q: Quotes, s: Save): set<Id> { MissingFrom(q.groups, s.incoming) }

  lemma {:induction false} GroupsWritten(groups: seq<Group>, job: Id, incoming: seq<Incoming>)
    ensures var r := EnsureGroups(groups, job, incoming);
      && groups <= r
      && (forall g :: g in r ==> g in groups || (g.job == job && g.title == "New group"))
      && (forall id :: HasGroup(r, id) <==>
            HasGroup(groups, id) || exists i :: 0 <= i < |incoming| && incoming[i].group == Some(id))
    decreases incoming
  {
    if incoming == [] {
    } else {
      var g, rest := incoming[0].group, incoming[1..];
      if g.Some? {
        GroupFound(groups, g.value);
      }
      var added := Group(Sent(g, ""), job, "New group");
      var next := if g.Some? && !HasGroup(groups, g.value) then groups + [added] else groups;
      GroupsWritten(next, job, rest);
      forall id ensures HasGroup(next, id) <==> HasGroup(groups, id) || g == Some(id) {
        if g == Some(id) && !HasGroup(groups, id) {
          assert added in next;
        }
      }
      forall id ensures (exists i :: 0 <= i < |incoming| && incoming[i].group == Some(id)) <==>
        (g == Some(id) || exists i :: 0 <= i < |rest| && rest[i].group == Some(id))
      {
        if i :| 0 <= i < |incoming| && incoming[i].group == Some(id) {
          assert i > 0 ==> rest[i - 1].group == Some(id);
        }
        if i :| 0 <= i < |rest| && rest[i].group == Some(id) {
          assert incoming[i + 1].group == Some(id);
        }
      }
    }
  }

  lemma {:induction false} MissingCons(groups: seq<Group>, incoming: seq<Incoming>, added: Group)
    requires incoming != [] && incoming[0].group == Some(added.id) && !HasGroup(groups, added.id)
    ensures MissingFrom(groups, incoming) == {added.id} + MissingFrom(groups + [added], incoming[1..])
    ensures added.id !in MissingFrom(groups + [added], incoming[1..])
  {
    var rest, next := incoming[1..], groups + [added];
    assert incoming == [incoming[0]] + rest;
    assert added in next;
    forall id ensures HasGroup(next, id) <==> HasGroup(groups, id) || id == added.id {
    }
  }

  lemma {:induction false} MissingExact(groups: seq<Group>, job: Id, incoming: seq<Incoming>)
    ensures |EnsureGroups(groups, job, incoming)| == |groups| + |MissingFrom(groups, incoming)|
    decreases incoming
  {
    if incoming == [] {
    } else {
      var g, rest := incoming[0].group, incoming[1..];
      if g.Some? {
        GroupFound(groups, g.value);
      }
      if g.Some? && !HasGroup(groups, g.value) {
        var added := Group(g.value, job, "New group");
        MissingExact(groups + [added], job, rest);
        MissingCons(groups, incoming, added);
      } else {
        MissingExact(groups, job, rest);
        assert incoming == [incoming[0]] + rest;
        assert MissingFrom(groups, incoming) == MissingFrom(groups, rest);
      }
    }
  }

  /** A save writes lines and groups only; the groups that the list names are there afterwards, those
      that were missing as new groups of the job. */
  lemma {:induction false} BulkGroups(q: Quotes, s: Save)
    requires BulkReplace(q, s).Success?
    ensures var r := BulkReplace(q, s).value;
      && r == q.(lines := r.lines, groups := r.groups) && q.groups <= r.groups
      && (forall g :: g in r.groups ==> g in q.groups || (g.job == s.job && g.title == "New group"))
      && (forall id :: HasGroup(r.groups, id) <==>
            HasGroup(q.groups, id) || exists i :: 0 <= i < |s.incoming| && s.incoming[i].group == Some(id))
      && |r.groups| == |q.groups| + |Missing(q, s)|
  {
    GroupsWritten(q.groups, s.job, s.incoming);
    MissingExact(q.groups, s.job, s.incoming);
  }

  // ---- the other services that write lines ----

  /** Deleting a concern takes it off every line, whatever job the line is on. */
  lemma {:induction false} ConcernWritten(q: Quotes, job: Id, concern: Id)
    ensures var r := RemoveConcern(q, job, concern);
      && (r.Success? <==> concern in q.concerns && q.concerns[concern] == job)
      && (r.Success? ==>
            && r.value == q.(concerns := q.concerns - {concern}, lines := r.value.lines)
            && |r.value.lines| == |q.lines|
            && forall i :: 0 <= i < |q.lines| ==>
                 r.value.lines[i] ==
                   if q.lines[i].concern == Some(concern) then q.lines[i].(concern := None) else q.lines[i])
  {
  }

  lemma {:induction false} GroupWritten(q: Quotes, group: Id)
    ensures var r := DeleteGroup(q, group);
      && (r.Success? <==> HasGroup(q.groups, group))
      && (r.Success? ==>
            && r.value == q.(groups := r.value.groups, lines := r.value.lines)
            && (forall g :: g in r.value.groups <==> g in q.groups && g.id != group)
            && |r.value.lines| == |q.lines|
            && forall i :: 0 <= i < |q.lines| ==>
                 r.value.lines[i] == if q.lines[i].group == Some(group) then q.lines[i].(group := None) else q.lines[i])
  {
    GroupFound(q.groups, group);
    forall g ensures g in Keep(GroupIsNot(group), q.groups) <==> g in q.groups && g.id != group {
      KeepMember(GroupIsNot(group), q.groups, g);
    }
  }

  /** A part line of the job takes the concern of its job part, if it has none or the same, and no
      other job part has the line. */
  lemma {:induction false} LinkWritten(q: Quotes, line: Id, job: Id, concern: Id, linked: bool)
    ensures var r, found := LinkPart(q, line, job, concern, linked), LineAt(q.lines, line);
      && (r.Success? <==>
            && concern in q.concerns && q.concerns[concern] == job && !linked
            && found.Some? && found.value.job == Some(job) && found.value.kind == PartLine
            && (found.value.concern == None || found.value.concern == Some(concern)))
      && (r.Success? ==>
            var k := IndexWhere(LineIs(line), q.lines);
            r.value == q.(lines := q.lines[k := q.lines[k].(concern := Some(concern))]))
  {
  }

  /** A job part without a line gets one, at its price, quantity and the default rate. */
  lemma {:induction false} PartLineWritten(q: Quotes, id: Id, job: Id, concern: Id, name: string,
                                           number: Option<string>, quantity: real, price: real, defaultTax: real,
                                           user: Id)
    ensures var r := AddPartLine(q, id, job, concern, name, number, quantity, price, defaultTax, user);
      && (r.Success? <==> concern in q.concerns && q.concerns[concern] == job && LineAt(q.lines, id).None?)
      && (r.Success? ==>
            && |r.value.lines| == |q.lines| + 1
            && var l := r.value.lines[|q.lines|];
               && r.value == q.(lines := q.lines + [l])
               && l.id == id && l.job == Some(job) && l.concern == Some(concern) && l.response.None? && l.group.None?
               && l.kind == PartLine && l.description == name && l.partNumber == number
               && l.quantity == quantity && l.unitPrice == price && l.discountPct == 0.0
               && l.taxRatePct == Some(defaultTax) && !l.recommended && l.sortOrder.None? && l.addedBy == user)
  {
  }

  /** Booking deferred work copies its line, free of its groups, to a new job. */
  lemma {:induction false} CopyWritten(q: Quotes, line: Id, id: Id, newJob: Id, user: Id)
    ensures var r, found := BookDeferred(q, line, id, newJob, user), LineAt(q.lines, line);
      && (r.Success? <==>
            (exists f :: f in q.deferred && f.line == line) && (found.Some? ==> LineAt(q.lines, id).None?))
      && (r.Success? && found.None? ==> r.value == q)
      && (r.Success? && found.Some? ==>
            && |r.value.lines| == |q.lines| + 1
            && var l := r.value.lines[|q.lines|];
               && r.value == q.(lines := q.lines + [l])
               && l.id == id && l.job == Some(newJob) && l.addedBy == user && l.sortOrder.None? && !l.recommended
               && l.concern.None? && l.response.None? && l.group.None?
               && l == found.value.(id := l.id, job := l.job, addedBy := user, sortOrder := None, recommended := false,
                                    concern := None, response := None, group := None))
  {
    AnyExact(FollowsLine(line), q.deferred);
  }

  // ---- links and decisions ----

  predicate HasLines(q: Quotes, job: Id) { exists l :: l in q.lines && l.job == Some(job) }

  lemma {:induction false} LinesExact(q: Quotes, job: Id)
    ensures Keep(OnJob(job), q.lines) != [] <==> HasLines(q, job)
  {
    if l :| l in q.lines && l.job == Some(job) {
      KeepMember(OnJob(job), q.lines, l);
    }
    if Keep(OnJob(job), q.lines) != [] {
      KeepMember(OnJob(job), q.lines, Keep(OnJob(job), q.lines)[0]);
    }
  }

  /** A link is issued for a job that exists, and an approval request for one with lines. */
  lemma {:induction false} LinkIssued(q: Quotes, id: Id, job: Id, jobExists: bool, expiresAt: int, needsLines: bool)
    ensures var r := IssueToken(q, id, job, jobExists, expiresAt, needsLines);
      && (r.Success? <==>
            && jobExists && (needsLines ==> HasLines(q, job))
            && !exists t :: t in q.tokens && t.id == id)
      && (r.Success? ==> r.value == q.(tokens := q.tokens + [Token(id, job, Some(expiresAt), false)]))
  {
    AnyExact(TokenIs(id), q.tokens);
    LinesExact(q, job);
  }

  predicate Followed(q: Quotes, job: Id, line: Id) { exists f :: f in q.deferred && f.job == job && f.line == line }

  function Worth(q: Quotes, line: Id): real {
    match LineAt(q.lines, line) case Some(l) => l.lineTotal case None => 0.0
  }

  /** The follow-ups of a submission: one for each declined or deferred line that has none yet on the
      job, worth what the line costs. */
  function FollowUps(q: Quotes, job: Id, items: seq<Item>): seq<FollowUp> {
    if items == [] then []
    else
      var first, rest := items[0], FollowUps(q, job, items[1..]);
      if first.choice == Approved || Followed(q, job, first.line) then rest
      else [FollowUp(job, first.line, Worth(q, first.line))] + rest
  }

  lemma {:induction false} FollowUpsStay(q: Quotes, one: Quotes, job: Id, items: seq<Item>, line: Id)
    requires one.lines == q.lines && forall i :: 0 <= i < |items| ==> items[i].line != line
    requires forall l :: l != line ==> (Followed(one, job, l) <==> Followed(q, job, l))
    ensures FollowUps(one, job, items) == FollowUps(q, job, items)
  {
    if items == [] {
    } else {
      assert forall i :: 0 <= i < |items[1..]| ==> items[1..][i] == items[i + 1];
      FollowUpsStay(q, one, job, items[1..], line);
    }
  }

  /** Recording one item adds at most the one follow-up of its line. */
  lemma {:induction false} OneRecorded(q: Quotes, token: Token, item: Item, now: int)
    requires RecordOne(q, token, item, now).Success?
    ensures var one := RecordOne(q, token, item, now).value;
      && one.lines == q.lines
      && one.deferred == q.deferred + FollowUps(q, token.job, [item])
      && forall l :: l != item.line ==> (Followed(one, token.job, l) <==> Followed(q, token.job, l))
  {
    var one := RecordOne(q, token, item, now).value;
    AnyExact(FollowsUp(token.job, item.line), q.deferred);
    assert [item][1..] == [];
    forall l | l != item.line ensures Followed(one, token.job, l) <==> Followed(q, token.job, l) {
      if f :| f in q.deferred && f.job == token.job && f.line == l {
        assert f in one.deferred;
      }
    }
  }

  lemma {:induction false} RecordedFollowUps(q: Quotes, token: Token, items: seq<Item>, now: int)
    requires RecordAll(q, token, items, now).Success?
    requires forall i, j :: 0 <= i < j < |items| ==> items[i].line != items[j].line
    ensures RecordAll(q, token, items, now).value.deferred == q.deferred + FollowUps(q, token.job, items)
    decreases items
  {
    if items == [] {
    } else {
      var first, rest := items[0], items[1..];
      var one := RecordOne(q, token, first, now).value;
      assert forall i :: 0 <= i < |rest| ==> rest[i] == items[i + 1];
      assert [first][1..] == [];
      OneRecorded(q, token, first, now);
      RecordedFollowUps(one, token, rest, now);
      FollowUpsStay(q, one, token.job, rest, first.line);
    }
  }

  /** An accepted submission writes decisions and follow-ups only: its decisions in order, at the time
      of the call, and the follow-ups that are new. */
  lemma {:induction false} SubmissionWritten(q: Quotes, tokenId: Id, items: seq<Item>, now: int)
    requires QuoteProtocol.Inv(q) && Decide(q, tokenId, items, now).Success?
    ensures var r := Decide(q, tokenId, items, now).value;
      var k := IndexWhere(TokenIs(tokenId), q.tokens);
      && k < |q.tokens|
      && r == q.(decisions := r.decisions, deferred := q.deferred + FollowUps(q, q.tokens[k].job, items))
      && |r.decisions| == |q.decisions| + |items| && q.decisions <= r.decisions
      && forall i :: 0 <= i < |items| ==>
           r.decisions[|q.decisions| + i] == Decision(tokenId, items[i].line, items[i].choice, now)
  {
    var k := IndexWhere(TokenIs(tokenId), q.tokens);
    QuoteProtocol.DecideInv(q, tokenId, items, now);
    QuoteProtocol.DecideExact(q, tokenId, items, now);
    RecordedFollowUps(q, q.tokens[k], items, now);
  }

  predicate HasConcern(q: Quotes, job: Id, concern: Id) { concern in q.concerns && q.concerns[concern] == job }

  /** A reset is accepted for a concern of the job; it keeps the decisions on lines of other concerns, in
      order, and writes nothing else. */
  lemma {:induction false} ResetWritten(q: Quotes, job: Id, concern: Id, d: Decision)
    requires QuoteProtocol.Inv(q)
    ensures var r := ResetConcern(q, job, concern);
      && (r.Success? <==> HasConcern(q, job, concern))
      && (r.Success? ==>
            && r.value == q.(decisions := r.value.decisions)
            && (d in r.value.decisions <==> d in q.decisions && LineAt(q.lines, d.line).value.concern != Some(concern)))
  {
    if ResetConcern(q, job, concern).Success? {
      QuoteProtocol.ResetExact(q, job, concern, d);
    }
  }

  // ---- refusals ----

  predicate OfJob(q: Quotes, d: Decision, job: Id) { TokenJob(q.tokens, d.token) == Some(job) }

  /** The link is spent, or its submission is empty, names a line of another job, or a decided one. */
  ghost predicate Unfit(q: Quotes, t: Token, items: seq<Item>, now: int) {
    || t.revoked || (t.expiresAt.Some? && t.expiresAt.value < now) || items == []
    || (exists item :: item in items && !exists l :: l in q.lines && l.id == item.line && l.job == Some(t.job))
    || (exists item, d :: item in items && d in q.decisions && d.line == item.line && OfJob(q, d, t.job))
  }

  /** What is missing is not found, what does not fit the job is a bad request, and a taken id or a repeated
      decision breaks a unique index. */
  ghost function Refusal(q: Quotes, call: Call): Error {
    match call
    case Create(_, _, dto, _, _) =>
      if dto.group.Some? && !HasGroup(q.groups, dto.group.value) then NotFound else UniqueViolation
    case Remove(id) => if LineAt(q.lines, id).None? then NotFound else ForeignKeyViolation
    case Bulk(_) => UniqueViolation
    case LinkJobPart(_, _, _, _) => BadRequest
    case AddJobPart(_, job, concern, _, _, _, _, _, _) =>
      if HasConcern(q, job, concern) then UniqueViolation else BadRequest
    case BookFollowUp(line, _, _, _) =>
      if exists f :: f in q.deferred && f.line == line then UniqueViolation else NotFound
    case Issue(_, job, jobExists, _, needsLines) =>
      if !jobExists then NotFound
      else if needsLines && !HasLines(q, job) then BadRequest
      else UniqueViolation
    case Submit(id, items, now) =>
      var k := IndexWhere(TokenIs(id), q.tokens);
      if k == |q.tokens| then NotFound else if Unfit(q, q.tokens[k], items, now) then BadRequest else UniqueViolation
    case _ => NotFound
  }

  lemma {:induction false} SaveRefused(lines: seq<Line>, existing: seq<Line>, s: Save, i: nat)
    requires i <= |s.incoming| && SaveFrom(lines, existing, s, i).Failure?
    requires forall x :: x in existing ==> exists l :: l in lines && l.id == x.id
    ensures SaveFrom(lines, existing, s, i).error == UniqueViolation
    decreases |s.incoming| - i
  {
    var k := IndexWhere(LineIs(SaveId(s, i)), lines);
    IndexWhereFirst(LineIs(SaveId(s, i)), lines);
    var old_ := ExistingFor(existing, s, i);
    if old_.Some? {
      var l :| l in lines && l.id == old_.value.id;
      var j :| 0 <= j < |lines| && lines[j] == l;
      assert LineIs(SaveId(s, i))(lines[j]);
    }
    if SaveOne(lines, existing, s, i).Success? {
      var next := SaveOne(lines, existing, s, i).value;
      forall x | x in existing ensures exists l :: l in next && l.id == x.id {
        var l :| l in lines && l.id == x.id;
        var j :| 0 <= j < |lines| && lines[j] == l;
        assert next[j].id == l.id;
      }
      SaveRefused(next, existing, s, i + 1);
    }
  }

  lemma {:induction false} BulkRefused(q: Quotes, s: Save)
    requires BulkReplace(q, s).Failure?
    ensures BulkReplace(q, s).error == UniqueViolation
  {
    var existing := Keep(OnJob(s.job), q.lines);
    forall x | x in existing ensures exists l :: l in q.lines && l.id == x.id {
      KeepMember(OnJob(s.job), q.lines, x);
    }
    SaveRefused(q.lines, existing, s, 0);
  }

  lemma {:induction false} RecordRefused(q: Quotes, token: Token, items: seq<Item>, now: int)
    requires RecordAll(q, token, items, now).Failure?
    ensures RecordAll(q, token, items, now).error == UniqueViolation
    decreases items
  {
    if RecordOne(q, token, items[0], now).Success? {
      RecordRefused(RecordOne(q, token, items[0], now).value, token, items[1..], now);
    }
  }

  lemma {:induction false} UnfitExact(q: Quotes, t: Token, items: seq<Item>, now: int)
    ensures Unfit(q, t, items, now) <==>
      || t.revoked || (t.expiresAt.Some? && t.expiresAt.value < now) || items == []
      || (exists i :: 0 <= i < |items| && !LineAllowed(q, t.job, items[i].line))
      || (exists i :: 0 <= i < |items| && DecidedOnJob(q, t.job, items[i].line))
  {
    forall line
      ensures LineAllowed(q, t.job, line) <==> exists l :: l in q.lines && l.id == line && l.job == Some(t.job)
      ensures DecidedOnJob(q, t.job, line) <==> exists d :: d in q.decisions && d.line == line && OfJob(q, d, t.job)
    {
    }
  }

  lemma {:induction false} SubmitRefused(q: Quotes, id: Id, items: seq<Item>, now: int)
    requires Decide(q, id, items, now).Failure?
    ensures Decide(q, id, items, now).error == Refusal(q, Submit(id, items, now))
  {
    var k := IndexWhere(TokenIs(id), q.tokens);
    if k < |q.tokens| {
      var t := q.tokens[k];
      UnfitExact(q, t, items, now);
      if !Unfit(q, t, items, now) {
        RecordRefused(q, t, items, now);
      }
    }
  }

  lemma {:induction false} RefusedExact(q: Quotes, call: Call)
    requires Apply(q, call).Failure?
    ensures Apply(q, call).error == Refusal(q, call)
  {
    match call
    case Create(_, _, dto, _, _) =>
      if dto.group.Some? {
        GroupFound(q.groups, dto.group.value);
      }
    case Bulk(save) => BulkRefused(q, save);
    case BookFollowUp(line, _, _, _) => AnyExact(FollowsLine(line), q.deferred);
    case Issue(_, job, _, _, _) => LinesExact(q, job);
    case Submit(id, items, now) => SubmitRefused(q, id, items, now);
    case _ =>
  }
}
