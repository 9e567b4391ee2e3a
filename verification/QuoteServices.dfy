/** The estimate and authorisation services as they run: loops over the submitted list that write
    one row at a time inside a transaction. Every method is proved to be the operation of `Quotes`,
    so the results over runs hold of the services. */
module QuoteServices {
  import opened Wrappers
  import opened Sequences
  import opened Q = Quotes

  /** The call either committed the described tables or threw and left everything as it was. */
  ghost predicate Commits(before: Quotes, outcome: Outcome, after: Quotes, thrown: Option<Error>) {
    match outcome
    case Success(next) => after == next && thrown == None
    case Failure(error) => after == before && thrown == Some(error)
  }

  class Services {
    var concerns: map<Id, Id>
    var lines: seq<Line>
    var groups: seq<Group>
    var tokens: seq<Token>
    var decisions: seq<Decision>
    var deferred: seq<FollowUp>
    var history: seq<Edit>

    function State(): Quotes
      reads this
    {
      Quotes(concerns, lines, groups, tokens, decisions, deferred, history)
    }

    constructor (concerns: map<Id, Id>)
      ensures State() == Quotes(concerns, [], [], [], [], [], [])
    {
      this.concerns := concerns;
      lines, groups, tokens, decisions, deferred, history := [], [], [], [], [], [];
    }

    // ---- estimates.service.ts ----

    method Create(id: Id, job: Id, dto: Incoming, user: Id, defaultTax: real) returns (thrown: Option<Error>)
      modifies this
      ensures Commits(old(State()), CreateLine(old(State()), id, job, dto, user, defaultTax), State(), thrown)
    {
      var qty, unitPrice, discount := Or(dto.quantity, 1.0), Or(dto.unitPrice, 0.0), Or(dto.discountPct, 0.0);
      var taxRate := Or(dto.taxRatePct, defaultTax);
      var lineTotal := LineTotal(qty, unitPrice, discount);
      if dto.group.Some? && !Any(GroupIs(dto.group.value), groups) { return Some(NotFound); }
      if Any(LineIs(id), lines) { return Some(UniqueViolation); }
      lines := lines + [Line(id, Some(job), dto.response, dto.group, dto.concern, Or(dto.kind, Labour),
                             Or(dto.description, ""), dto.partNumber, qty, unitPrice, discount, Some(taxRate),
                             lineTotal, TaxAmount(lineTotal, taxRate), Or(dto.recommended, dto.response.Some?),
                             None, user)];
      return None;
    }

    method Update(id: Id, dto: Incoming) returns (thrown: Option<Error>)
      modifies this
      ensures Commits(old(State()), UpdateLine(old(State()), id, dto), State(), thrown)
    {
      var k := IndexWhere(LineIs(id), lines);
      if k == |lines| { return Some(NotFound); }
      history := history + [Edit(id, lines[k])];
      lines := lines[k := Patched(lines[k], dto)];
      return None;
    }

    method Remove(id: Id) returns (thrown: Option<Error>)
      modifies this
      ensures Commits(old(State()), RemoveLine(old(State()), id), State(), thrown)
    {
      if !Any(LineIs(id), lines) { return Some(NotFound); }
      if Any(DecidesLine(id), decisions) || Any(FollowsLine(id), deferred) || Any(EditsLine(id), history) {
        return Some(ForeignKeyViolation);
      }
      lines := Keep(LineIsNot(id), lines);
      return None;
    }

    /** Create the quote groups that the list names. */
    method EnsureGroups(job: Id, incoming: seq<Incoming>)
      modifies this`groups
      ensures groups == Q.EnsureGroups(old(groups), job, incoming)
    {
      for i := 0 to |incoming|
        invariant Q.EnsureGroups(groups, job, incoming[i..]) == Q.EnsureGroups(old(groups), job, incoming)
      {
        assert incoming[i..][0] == incoming[i] && incoming[i..][1..] == incoming[i + 1..];
        var gid := incoming[i].group;
        if gid.Some? && !Any(GroupIs(gid.value), groups) {
          groups := groups + [Group(gid.value, job, "New group")];
        }
      }
    }

    /** Upsert the list in order: update a line that the job had, create any other. */
    method SaveLines(save: Save, existing: seq<Line>) returns (thrown: Option<Error>)
      modifies this`lines
      ensures match SaveFrom(old(lines), existing, save, 0)
              case Success(saved) => lines == saved && thrown == None
              case Failure(error) => thrown == Some(error)
    {
      for i := 0 to |save.incoming|
        invariant SaveFrom(lines, existing, save, i) == SaveFrom(old(lines), existing, save, 0)
      {
        var id := if save.incoming[i].id.Some? then save.incoming[i].id.value else save.newId(i);
        var existingLine := if save.incoming[i].id.Some? then LineAt(existing, id) else None;
        var data := Priced(save.job, id, save.incoming[i], i, existingLine, save.user, save.defaultTax);
        var k := IndexWhere(LineIs(id), lines);
        if existingLine.Some? {
          if k == |lines| { return Some(NotFound); }
          lines := lines[k := data];
        } else {
          if k < |lines| { return Some(UniqueViolation); }
          lines := lines + [data];
        }
      }
      return None;
    }

    /** Detach each stale line that something refers to, at the next position; delete the others. The
        tables that may refer to lines are those of `q`. */
    method RetireStale(stale: seq<Line>, n: nat, ghost q: Quotes)
      requires q.decisions == decisions && q.deferred == deferred && q.history == history
      modifies this`lines
      ensures lines == RetireAll(q, old(lines), stale, n)
    {
      var preservedSortOrder := n;
      for m := 0 to |stale|
        invariant RetireAll(q, lines, stale[m..], preservedSortOrder) == RetireAll(q, old(lines), stale, n)
      {
        assert stale[m..][0] == stale[m] && stale[m..][1..] == stale[m + 1..];
        var id := stale[m].id;
        var hasReferences :=
          Any(DecidesLine(id), decisions) || Any(FollowsLine(id), deferred) || Any(EditsLine(id), history);
        if hasReferences {
          var k := IndexWhere(LineIs(id), lines);
          if k < |lines| {
            lines := lines[k := lines[k].(job := None, response := None, group := None, concern := None,
                                          sortOrder := Some(preservedSortOrder))];
          }
          preservedSortOrder := preservedSortOrder + 1;
        } else {
          lines := Keep(LineIsNot(id), lines);
        }
      }
    }

    method BulkReplace(save: Save) returns (thrown: Option<Error>)
      modifies this
      ensures Commits(old(State()), Q.BulkReplace(old(State()), save), State(), thrown)
    {
      var beforeLines, beforeGroups := lines, groups;
      var existing := Keep(OnJob(save.job), lines);
      EnsureGroups(save.job, save.incoming);
      thrown := SaveLines(save, existing);
      if thrown.Some? {
        lines, groups := beforeLines, beforeGroups;
        return;
      }
      var staleLines := Keep(Stale(save.incoming), existing);
      RetireStale(staleLines, |save.incoming|, old(State()));
    }

    // ---- the other services that write lines ----

    /** `updateMany`: write every line that the predicate selects. */
    method UpdateMany(selects: Line -> bool, change: Line -> Line)
      modifies this`lines
      ensures |lines| == |old(lines)|
      ensures forall i :: 0 <= i < |lines| ==>
        lines[i] == if selects(old(lines)[i]) then change(old(lines)[i]) else old(lines)[i]
    {
      for i := 0 to |lines|
        invariant |lines| == |old(lines)|
        invariant forall j :: 0 <= j < |lines| ==>
          lines[j] == if j < i && selects(old(lines)[j]) then change(old(lines)[j]) else old(lines)[j]
      {
        if selects(lines[i]) {
          lines := lines[i := change(lines[i])];
        }
      }
    }

    method DropConcern(job: Id, concern: Id) returns (thrown: Option<Error>)
      modifies this
      ensures Commits(old(State()), RemoveConcern(old(State()), job, concern), State(), thrown)
    {
      if concern !in concerns || concerns[concern] != job { return Some(NotFound); }
      UpdateMany((l: Line) => l.concern == Some(concern), (l: Line) => l.(concern := None));
      assert lines == MapLines(WithoutConcern(concern), old(lines));
      concerns := concerns - {concern};
      return None;
    }

    method DropGroup(group: Id) returns (thrown: Option<Error>)
      modifies this
      ensures Commits(old(State()), DeleteGroup(old(State()), group), State(), thrown)
    {
      if !Any(GroupIs(group), groups) { return Some(NotFound); }
      UpdateMany((l: Line) => l.group == Some(group), (l: Line) => l.(group := None));
      assert lines == MapLines(WithoutGroup(group), old(lines));
      groups := Keep(GroupIsNot(group), groups);
      return None;
    }

    method LinkJobPart(line: Id, job: Id, concern: Id, linked: bool) returns (thrown: Option<Error>)
      modifies this
      ensures Commits(old(State()), LinkPart(old(State()), line, job, concern, linked), State(), thrown)
    {
      if concern !in concerns || concerns[concern] != job { return Some(BadRequest); }
      var k := IndexWhere(LineIs(line), lines);
      if k == |lines| || lines[k].job != Some(job) { return Some(BadRequest); }
      if lines[k].kind != PartLine { return Some(BadRequest); }
      if lines[k].concern.Some? && lines[k].concern.value != concern { return Some(BadRequest); }
      assert lines[k].concern == Some(concern) ==> lines[k := lines[k].(concern := Some(concern))] == lines;
      var before := lines;
      if lines[k].concern.None? {
        lines := lines[k := lines[k].(concern := Some(concern))];
      }
      if linked {
        lines := before;
        return Some(BadRequest);
      }
      return None;
    }

    // ---- authorisation.service.ts ----

    method DecideFromPortal(tokenId: Id, items: seq<Item>, now: int) returns (thrown: Option<Error>)
      modifies this
      ensures Commits(old(State()), Decide(old(State()), tokenId, items, now), State(), thrown)
    {
      var k := IndexWhere(TokenIs(tokenId), tokens);
      if k == |tokens| { return Some(NotFound); }
      var token := tokens[k];
      if token.revoked { return Some(BadRequest); }
      if token.expiresAt.Some? && token.expiresAt.value < now { return Some(BadRequest); }
      if items == [] { return Some(BadRequest); }
      var allowedLineIds := set i | 0 <= i < |lines| && lines[i].job == Some(token.job) :: lines[i].id;
      for i := 0 to |items|
        invariant forall j :: 0 <= j < i ==> LineAllowed(State(), token.job, items[j].line)
      {
        if items[i].line !in allowedLineIds { return Some(BadRequest); }
      }
      if exists i :: 0 <= i < |items| && DecidedOnJob(State(), token.job, items[i].line) { return Some(BadRequest); }
      thrown := RecordDecisions(token, items, now);
    }

    method RecordDecisions(token: Token, items: seq<Item>, now: int) returns (thrown: Option<Error>)
      modifies this`decisions, this`deferred
      ensures Commits(old(State()), RecordAll(old(State()), token, items, now), State(), thrown)
    {
      var beforeDecisions, beforeDeferred := decisions, deferred;
      for i := 0 to |items|
        invariant RecordAll(State(), token, items[i..], now) == RecordAll(old(State()), token, items, now)
      {
        var item := items[i];
        assert items[i..][0] == item && items[i..][1..] == items[i + 1..];
        if Any(DecidesBy(token.id, item.line), decisions) {
          decisions, deferred := beforeDecisions, beforeDeferred;
          return Some(UniqueViolation);
        }
        decisions := decisions + [Decision(token.id, item.line, item.choice, now)];
        if item.choice == Declined || item.choice == Deferred {
          var existingDeferred := Any(FollowsUp(token.job, item.line), deferred);
          if !existingDeferred {
            var estimateLine := LineAt(lines, item.line);
            deferred := deferred + [FollowUp(token.job, item.line,
                                             if estimateLine.Some? then estimateLine.value.lineTotal else 0.0)];
          }
        }
      }
      return None;
    }

    method ResetConcernApproval(job: Id, concern: Id) returns (thrown: Option<Error>)
      modifies this
      ensures Commits(old(State()), ResetConcern(old(State()), job, concern), State(), thrown)
      ensures thrown.None? ==> forall d :: d in decisions <==>
        d in old(decisions) && forall i :: 0 <= i < |lines| && lines[i].concern == Some(concern) ==>
          lines[i].id != d.line
    {
      if concern !in concerns || concerns[concern] != job { return Some(NotFound); }
      var onConcern := ConcernLines(lines, concern);
      decisions := Keep(NotOnLines(onConcern), decisions);
      forall d ensures d in decisions <==> d in old(decisions) && d.line !in onConcern {
        KeepMember(NotOnLines(onConcern), old(decisions), d);
      }
      return None;
    }

    method IssueLink(id: Id, job: Id, jobExists: bool, expiresAt: int, needsLines: bool) returns (thrown: Option<Error>)
      modifies this
      ensures Commits(old(State()), IssueToken(old(State()), id, job, jobExists, expiresAt, needsLines), State(),
                      thrown)
    {
      if !jobExists { return Some(NotFound); }
      if needsLines && Keep(OnJob(job), lines) == [] { return Some(BadRequest); }
      if Any(TokenIs(id), tokens) { return Some(UniqueViolation); }
      tokens := tokens + [Token(id, job, Some(expiresAt), false)];
      return None;
    }
  }
}
