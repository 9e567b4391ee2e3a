/** What every run of estimate edits, bulk saves, links, decisions and resets keeps. */
module QuoteProtocol {
  import opened Wrappers
  import opened Sequences
  import opened Quotes
  import opened QuoteBulk

  // ---- the invariant ----

  /** No decision, follow-up or history row points to a missing line. */
  ghost predicate NoOrphans(q: Quotes) {
    forall x :: Referenced(q, x) ==> LineAt(q.lines, x).Some?
  }

  /** A decision came through a link of the job that its line is on, or was on before it was detached. */
  ghost predicate DecidedOnOwnJob(q: Quotes, d: Decision) {
    var job, line := TokenJob(q.tokens, d.token), LineAt(q.lines, d.line);
    job.Some? && line.Some? && (line.value.job == None || line.value.job == job)
  }

  ghost predicate DecisionsOnJob(q: Quotes) {
    forall d :: d in q.decisions ==> DecidedOnOwnJob(q, d)
  }

  /** A line holds at most one decision, across all links. */
  ghost predicate OncePerLine(decisions: seq<Decision>) {
    forall i, j :: 0 <= i < j < |decisions| ==> decisions[i].line != decisions[j].line
  }

  predicate FollowedUp(q: Quotes, d: Decision) {
    var job := TokenJob(q.tokens, d.token);
    d.choice != Approved ==> job.Some? && Any(FollowsUp(job.value, d.line), q.deferred)
  }

  /** Every declined or deferred decision has its deferred-work row. */
  ghost predicate AllFollowedUp(q: Quotes) {
    forall d :: d in q.decisions ==> FollowedUp(q, d)
  }

  ghost predicate OneFollowUp(deferred: seq<FollowUp>) {
    forall i, j :: 0 <= i < j < |deferred| ==>
      deferred[i].job != deferred[j].job || deferred[i].line != deferred[j].line
  }

  /** Something that no operation removes refers to the line: history, deferred work, or a decision
      that no reset can reach because the line belongs to no concern. */
  predicate Anchored(q: Quotes, x: Id) {
    || Any(EditsLine(x), q.history)
    || Any(FollowsLine(x), q.deferred)
    || (Any(DecidesLine(x), q.decisions) && LineAt(q.lines, x).Some? && LineAt(q.lines, x).value.concern == None)
  }

  predicate IsDetached(lines: seq<Line>, x: Id) {
    LineAt(lines, x).Some? && LineAt(lines, x).value.job == None
  }

  ghost predicate DetachedAnchored(q: Quotes) {
    forall x :: IsDetached(q.lines, x) ==> Anchored(q, x)
  }

  ghost predicate Inv(q: Quotes) {
    && Distinct(q.lines)
    && NoOrphans(q)
    && DecisionsOnJob(q)
    && OncePerLine(q.decisions)
    && AllFollowedUp(q)
    && OneFollowUp(q.deferred)
    && DetachedAnchored(q)
  }

  // ---- operations that write lines ----

  predicate StaysOrDetaches(lines: seq<Line>, result: seq<Line>, x: Id) {
    && LineAt(lines, x).Some? && LineAt(result, x).Some?
    && (LineAt(result, x).value.job == LineAt(lines, x).value.job || LineAt(result, x).value.job == None)
  }

  /** What create, update, remove and bulk save have in common. */
  ghost predicate LineStep(q: Quotes, r: Quotes) {
    && r.tokens == q.tokens && r.decisions == q.decisions && r.deferred == q.deferred
    && Distinct(r.lines)
    && (forall x :: Any(EditsLine(x), q.history) ==> Any(EditsLine(x), r.history))
    && (forall x :: Any(EditsLine(x), r.history) ==> Any(EditsLine(x), q.history) || LineAt(r.lines, x).Some?)
    && (forall x :: Referenced(q, x) && LineAt(q.lines, x).Some? ==> StaysOrDetaches(q.lines, r.lines, x))
    && (forall x :: IsDetached(r.lines, x) ==> Anchored(r, x) || LineAt(r.lines, x) == LineAt(q.lines, x))
  }

  lemma {:induction false} AnyMember<T>(p: T -> bool, s: seq<T>)
    ensures Any(p, s) <==> exists i :: 0 <= i < |s| && p(s[i])
  {
    IndexWhereFirst(p, s);
  }

  lemma {:induction false} DecisionRefers(q: Quotes, d: Decision)
    requires d in q.decisions
    ensures Any(DecidesLine(d.line), q.decisions) && Referenced(q, d.line)
  {
    AnyMember(DecidesLine(d.line), q.decisions);
    var i :| 0 <= i < |q.decisions| && q.decisions[i] == d;
    assert DecidesLine(d.line)(q.decisions[i]);
  }

  lemma {:induction false} LineStepInv(q: Quotes, r: Quotes)
    requires Inv(q) && LineStep(q, r)
    ensures Inv(r)
  {
    forall x | Referenced(r, x) ensures LineAt(r.lines, x).Some? {
      if Referenced(q, x) {
        assert StaysOrDetaches(q.lines, r.lines, x);
      }
    }
    forall d | d in r.decisions ensures DecidedOnOwnJob(r, d) && FollowedUp(r, d) {
      assert DecidedOnOwnJob(q, d) && FollowedUp(q, d);
      DecisionRefers(q, d);
      assert StaysOrDetaches(q.lines, r.lines, d.line);
    }
    forall x | IsDetached(r.lines, x) ensures Anchored(r, x) {
      if LineAt(r.lines, x) == LineAt(q.lines, x) {
        assert IsDetached(q.lines, x) && Anchored(q, x);
      }
    }
  }

  lemma {:induction false} AnyAdd<T>(p: T -> bool, s: seq<T>, x: T)
    ensures Any(p, s + [x]) <==> Any(p, s) || p(x)
  {
    IndexWhereAppend(p, s, x);
  }

  lemma {:induction false} CreateLineStep(q: Quotes, id: Id, job: Id, dto: Incoming, user: Id, defaultTax: real)
    requires Inv(q) && CreateLine(q, id, job, dto, user, defaultTax).Success?
    ensures LineStep(q, CreateLine(q, id, job, dto, user, defaultTax).value)
  {
    var r := CreateLine(q, id, job, dto, user, defaultTax).value;
    AddLine(q.lines, r.lines[|q.lines|]);
  }

  lemma {:induction false} UpdateLineStep(q: Quotes, id: Id, dto: Incoming)
    requires Inv(q) && UpdateLine(q, id, dto).Success?
    ensures LineStep(q, UpdateLine(q, id, dto).value)
  {
    var k := IndexWhere(LineIs(id), q.lines);
    var r := UpdateLine(q, id, dto).value;
    WriteLine(q.lines, k, Patched(q.lines[k], dto));
    forall x ensures Any(EditsLine(x), r.history) <==> Any(EditsLine(x), q.history) || x == id {
      AnyAdd(EditsLine(x), q.history, Edit(id, q.lines[k]));
    }
    assert r.lines == q.lines[k := Patched(q.lines[k], dto)];
    assert LineAt(q.lines, id) == Some(q.lines[k]);
  }

  lemma {:induction false} RemoveLineStep(q: Quotes, id: Id)
    requires Inv(q) && RemoveLine(q, id).Success?
    ensures LineStep(q, RemoveLine(q, id).value)
  {
    DropLine(q.lines, id);
  }

  // ---- concerns, groups, job parts and booked deferred work ----

  /** A change of the lines in place that keeps ids and jobs, and never gives a line a concern. */
  ghost predicate KeepsPlace(f: Line -> Line) {
    forall l :: f(l).id == l.id && f(l).job == l.job && (l.concern == None ==> f(l).concern == None)
  }

  lemma {:induction false} MapLinesAt(f: Line -> Line, lines: seq<Line>, x: Id)
    requires Distinct(lines) && KeepsPlace(f)
    ensures Distinct(MapLines(f, lines))
    ensures LineAt(MapLines(f, lines), x) == (var l := LineAt(lines, x); if l.Some? then Some(f(l.value)) else None)
  {
    var k, r := IndexWhere(LineIs(x), lines), MapLines(f, lines);
    IndexWhereFirst(LineIs(x), lines);
    forall i | 0 <= i < |lines| ensures r[i].id == lines[i].id && LineIs(x)(r[i]) == LineIs(x)(lines[i]) {
    }
    if k < |lines| {
      LineAtMember(r, k);
    } else {
      IndexWhereNone(LineIs(x), r);
    }
  }

  lemma {:induction false} MapLinesStep(q: Quotes, f: Line -> Line, r: Quotes)
    requires Inv(q) && KeepsPlace(f) &&
      r == q.(concerns := r.concerns, groups := r.groups, lines := MapLines(f, q.lines))
    ensures LineStep(q, r)
  {
    forall x ensures LineAt(r.lines, x) == (var l := LineAt(q.lines, x); if l.Some? then Some(f(l.value)) else None) {
      MapLinesAt(f, q.lines, x);
    }
    MapLinesAt(f, q.lines, "");
    forall x | IsDetached(r.lines, x) ensures Anchored(r, x) {
      assert IsDetached(q.lines, x) && Anchored(q, x);
    }
  }

  lemma {:induction false} AddedLineStep(q: Quotes, l: Line)
    requires Inv(q) && l.job.Some? && !Any(LineIs(l.id), q.lines)
    ensures LineStep(q, q.(lines := q.lines + [l]))
  {
    AddLine(q.lines, l);
  }

  lemma {:induction false} OtherLineStep(q: Quotes, call: Call)
    requires call.DropConcern? || call.DropGroup? || call.LinkJobPart? || call.AddJobPart? || call.BookFollowUp?
    requires Inv(q) && Apply(q, call).Success?
    ensures LineStep(q, Apply(q, call).value)
  {
    var r := Apply(q, call).value;
    match call
    case DropConcern(job, concern) => MapLinesStep(q, WithoutConcern(concern), r);
    case DropGroup(id) => MapLinesStep(q, WithoutGroup(id), r);
    case LinkJobPart(line, job, concern, linked) =>
      var k := IndexWhere(LineIs(line), q.lines);
      WriteLine(q.lines, k, q.lines[k].(concern := Some(concern)));
      assert LineAt(q.lines, line) == Some(q.lines[k]);
    case AddJobPart(_, _, _, _, _, _, _, _, _) => AddedLineStep(q, r.lines[|q.lines|]);
    case BookFollowUp(line, _, _, _) =>
      if LineAt(q.lines, line).Some? {
        AddedLineStep(q, r.lines[|q.lines|]);
      }
  }

  // ---- bulk save, with any ids at all ----

  /** Saving writes rows of the job only: it adds lines, and never moves one off its job. */
  ghost predicate WritesJobOnly(lines: seq<Line>, job: Id, result: seq<Line>) {
    && Distinct(result)
    && (forall x :: LineAt(lines, x).Some? ==>
          LineAt(result, x).Some? && LineAt(result, x).value.job == LineAt(lines, x).value.job)
    && (forall x :: LineAt(result, x) != LineAt(lines, x) ==>
          LineAt(result, x).Some? && LineAt(result, x).value.job == Some(job))
  }

  lemma {:induction false} SaveFromWritesJobOnly(lines: seq<Line>, existing: seq<Line>, s: Save, i: nat)
    requires i <= |s.incoming| && Distinct(lines) && StillOnJob(lines, existing, s.job)
    requires SaveFrom(lines, existing, s, i).Success?
    ensures WritesJobOnly(lines, s.job, SaveFrom(lines, existing, s, i).value)
    decreases |s.incoming| - i
  {
    if i < |s.incoming| {
      SaveOneEffect(lines, existing, s, i);
      var one := SaveOne(lines, existing, s, i).value;
      if ExistingFor(existing, s, i).Some? {
        assert LineAt(existing, SaveId(s, i)).Some?;
      }
      assert Row(existing, s, i).job == Some(s.job);
      SaveFromWritesJobOnly(one, existing, s, i + 1);
    }
  }

  /** A stale line is deleted when nothing refers to it and otherwise detached. */
  predicate RetiredTo(q: Quotes, saved: seq<Line>, result: seq<Line>, x: Id) {
    && LineAt(saved, x).Some?
    && if Referenced(q, x)
       then LineAt(result, x).Some? && LineAt(result, x).value.job == None && LineAt(result, x).value.concern == None
       else LineAt(result, x).None?
  }

  lemma {:induction false} RetiredLineStep(q: Quotes, job: Id, saved: seq<Line>, r: Quotes)
    requires Inv(q) && WritesJobOnly(q.lines, job, saved)
    requires r == q.(groups := r.groups, lines := r.lines) && Distinct(r.lines)
    requires forall x :: LineAt(r.lines, x) == LineAt(saved, x) || RetiredTo(q, saved, r.lines, x)
    ensures LineStep(q, r)
  {
  }

  lemma {:induction false} RetireLineStep(q: Quotes, s: Save, saved: seq<Line>, groups: seq<Group>)
    requires Inv(q) && WritesJobOnly(q.lines, s.job, saved)
    ensures LineStep(q, q.(groups := groups, lines := RetireAll(q, saved, StaleLines(q, s), |s.incoming|)))
  {
    var stale, n := StaleLines(q, s), |s.incoming|;
    var r := q.(groups := groups, lines := RetireAll(q, saved, stale, n));
    StaleFacts(q, s);
    RetireAllEffect(q, saved, stale, n, s.job);
    forall x ensures LineAt(r.lines, x) == LineAt(saved, x) || RetiredTo(q, saved, r.lines, x) {
    }
    RetiredLineStep(q, s.job, saved, r);
  }

  lemma {:induction false} BulkLineStep(q: Quotes, s: Save)
    requires Inv(q) && BulkReplace(q, s).Success?
    ensures LineStep(q, BulkReplace(q, s).value)
  {
    StaleFacts(q, s);
    SaveFromWritesJobOnly(q.lines, Existing(q, s), s, 0);
    RetireLineStep(q, s, SaveFrom(q.lines, Existing(q, s), s, 0).value, EnsureGroups(q.groups, s.job, s.incoming));
  }

  // ---- links, decisions and resets ----

  lemma {:induction false} IssueTokenInv(q: Quotes, id: Id, job: Id, jobExists: bool, expiresAt: int, needsLines: bool)
    requires Inv(q) && IssueToken(q, id, job, jobExists, expiresAt, needsLines).Success?
    ensures Inv(IssueToken(q, id, job, jobExists, expiresAt, needsLines).value)
  {
    var token := Token(id, job, Some(expiresAt), false);
    var r := q.(tokens := q.tokens + [token]);
    forall d | d in q.decisions ensures DecidedOnOwnJob(r, d) && FollowedUp(r, d) {
      assert DecidedOnOwnJob(q, d) && FollowedUp(q, d);
      IndexWhereAppend(TokenIs(d.token), q.tokens, token);
    }
    forall x ensures Referenced(r, x) == Referenced(q, x) && Anchored(r, x) == Anchored(q, x) {
    }
  }

  /** The token may still decide the line: no other link has. */
  ghost predicate MayDecide(q: Quotes, token: Token, line: Id) {
    && TokenJob(q.tokens, token.id) == Some(token.job)
    && LineAt(q.lines, line).Some? && LineAt(q.lines, line).value.job == Some(token.job)
    && forall d :: d in q.decisions && d.line == line ==> d.token == token.id
  }

  predicate AddsFollowUp(q: Quotes, token: Token, item: Item, f: FollowUp, r: Quotes) {
    && f.job == token.job && f.line == item.line
    && !Any(FollowsUp(f.job, f.line), q.deferred) && r.deferred == q.deferred + [f]
  }

  /** The tables after recording one decision. */
  ghost predicate Recorded(q: Quotes, token: Token, item: Item, now: int, r: Quotes) {
    && r == q.(decisions := r.decisions, deferred := r.deferred)
    && r.decisions == q.decisions + [Decision(token.id, item.line, item.choice, now)]
    && (r.deferred == q.deferred || exists f: FollowUp :: AddsFollowUp(q, token, item, f, r))
    && (item.choice == Approved || Any(FollowsUp(token.job, item.line), r.deferred))
  }

  lemma {:induction false} RecordOneRecorded(q: Quotes, token: Token, item: Item, now: int)
    requires RecordOne(q, token, item, now).Success?
    ensures Recorded(q, token, item, now, RecordOne(q, token, item, now).value)
    ensures !Any(DecidesBy(token.id, item.line), q.decisions)
  {
    var r := RecordOne(q, token, item, now).value;
    if r.deferred != q.deferred {
      var f := r.deferred[|q.deferred|];
      assert AddsFollowUp(q, token, item, f, r);
      AnyAdd(FollowsUp(token.job, item.line), q.deferred, f);
    }
  }

  lemma {:induction false} FollowUpsGrow(q: Quotes, token: Token, item: Item, now: int, r: Quotes)
    requires Recorded(q, token, item, now, r) && OneFollowUp(q.deferred)
    ensures OneFollowUp(r.deferred)
    ensures forall job, x :: Any(FollowsUp(job, x), q.deferred) ==> Any(FollowsUp(job, x), r.deferred)
    ensures forall x :: Any(FollowsLine(x), q.deferred) ==> Any(FollowsLine(x), r.deferred)
    ensures forall x :: Any(FollowsLine(x), r.deferred) ==> Any(FollowsLine(x), q.deferred) || x == item.line
  {
    if r.deferred != q.deferred {
      var f: FollowUp :| AddsFollowUp(q, token, item, f, r);
      IndexWhereFirst(FollowsUp(f.job, f.line), q.deferred);
      forall i | 0 <= i < |q.deferred| ensures q.deferred[i].job != f.job || q.deferred[i].line != f.line {
        assert !FollowsUp(f.job, f.line)(q.deferred[i]);
      }
      forall job, x ensures Any(FollowsUp(job, x), q.deferred) ==> Any(FollowsUp(job, x), r.deferred) {
        AnyAdd(FollowsUp(job, x), q.deferred, f);
      }
      forall x ensures Any(FollowsLine(x), r.deferred) <==> Any(FollowsLine(x), q.deferred) || x == f.line {
        AnyAdd(FollowsLine(x), q.deferred, f);
      }
    }
  }

  lemma {:induction false} NotYetDecided(q: Quotes, token: Token, line: Id)
    requires MayDecide(q, token, line) && !Any(DecidesBy(token.id, line), q.decisions)
    ensures forall d :: d in q.decisions ==> d.line != line
  {
    IndexWhereFirst(DecidesBy(token.id, line), q.decisions);
    forall i | 0 <= i < |q.decisions| ensures q.decisions[i].line != line {
      assert !DecidesBy(token.id, line)(q.decisions[i]);
    }
  }

  lemma {:induction false} RecordOneInv(q: Quotes, token: Token, item: Item, now: int)
    requires Inv(q) && MayDecide(q, token, item.line) && RecordOne(q, token, item, now).Success?
    ensures Inv(RecordOne(q, token, item, now).value)
  {
    var r := RecordOne(q, token, item, now).value;
    var decision := Decision(token.id, item.line, item.choice, now);
    RecordOneRecorded(q, token, item, now);
    FollowUpsGrow(q, token, item, now, r);
    NotYetDecided(q, token, item.line);
    forall d | d in r.decisions ensures DecidedOnOwnJob(r, d) && FollowedUp(r, d) {
      if d in q.decisions {
        assert DecidedOnOwnJob(q, d) && FollowedUp(q, d);
      } else {
        assert d == decision;
      }
    }
    forall x ensures Any(DecidesLine(x), r.decisions) <==> Any(DecidesLine(x), q.decisions) || x == item.line {
      AnyAdd(DecidesLine(x), q.decisions, decision);
    }
    assert NoOrphans(r);
    assert DetachedAnchored(r) by {
      forall x | IsDetached(r.lines, x) ensures Anchored(r, x) {
        assert IsDetached(q.lines, x) && Anchored(q, x);
      }
    }
  }

  /** A submission appends its decisions in order, and touches nothing but decisions and follow-ups. */
  ghost predicate RecordedAll(q: Quotes, token: Token, items: seq<Item>, now: int, r: Quotes) {
    && r == q.(decisions := r.decisions, deferred := r.deferred)
    && |r.decisions| == |q.decisions| + |items| && r.decisions[..|q.decisions|] == q.decisions
    && (forall i :: 0 <= i < |items| ==>
      r.decisions[|q.decisions| + i] == Decision(token.id, items[i].line, items[i].choice, now))
    && q.deferred <= r.deferred
  }

  lemma {:induction false} RecordedCons(q: Quotes, one: Quotes, token: Token, items: seq<Item>, now: int, r: Quotes)
    requires items != [] && Recorded(q, token, items[0], now, one) && RecordedAll(one, token, items[1..], now, r)
    ensures RecordedAll(q, token, items, now, r)
  {
  }

  lemma {:induction false} RecordAllInv(q: Quotes, token: Token, items: seq<Item>, now: int)
    requires Inv(q) && RecordAll(q, token, items, now).Success?
    requires forall i :: 0 <= i < |items| ==> MayDecide(q, token, items[i].line)
    ensures Inv(RecordAll(q, token, items, now).value)
    ensures RecordedAll(q, token, items, now, RecordAll(q, token, items, now).value)
    decreases items
  {
    if items == [] {
    } else {
      var one := RecordOne(q, token, items[0], now).value;
      RecordOneRecorded(q, token, items[0], now);
      RecordOneInv(q, token, items[0], now);
      forall i | 0 <= i < |items[1..]| ensures MayDecide(one, token, items[1..][i].line) {
        assert items[1..][i] == items[i + 1];
        assert MayDecide(q, token, items[i + 1].line);
      }
      RecordAllInv(one, token, items[1..], now);
      RecordedCons(q, one, token, items, now, RecordAll(one, token, items[1..], now).value);
    }
  }

  ghost predicate Undecided(decisions: seq<Decision>, line: Id) { forall d :: d in decisions ==> d.line != line }

  /** A line on the job that no link of the job has decided, no link at all has decided. */
  lemma {:induction false} UndecidedLine(q: Quotes, job: Id, line: Id)
    requires Inv(q) && LineAllowed(q, job, line) && !DecidedOnJob(q, job, line)
    ensures LineAt(q.lines, line).Some? && LineAt(q.lines, line).value.job == Some(job) && Undecided(q.decisions, line)
  {
    var k :| 0 <= k < |q.lines| && q.lines[k].id == line && q.lines[k].job == Some(job);
    LineAtMember(q.lines, k);
    forall i | 0 <= i < |q.decisions| ensures q.decisions[i].line != line {
      assert DecidedOnOwnJob(q, q.decisions[i]);
    }
  }

  /** An accepted submission keeps the invariant and appends exactly its own decisions. */
  lemma {:induction false} DecideInv(q: Quotes, tokenId: Id, items: seq<Item>, now: int)
    requires Inv(q) && Decide(q, tokenId, items, now).Success?
    ensures Inv(Decide(q, tokenId, items, now).value)
    ensures RecordedAll(q, q.tokens[IndexWhere(TokenIs(tokenId), q.tokens)], items, now,
                        Decide(q, tokenId, items, now).value)
  {
    var token := q.tokens[IndexWhere(TokenIs(tokenId), q.tokens)];
    assert token.id == tokenId && TokenJob(q.tokens, token.id) == Some(token.job);
    forall i | 0 <= i < |items| ensures MayDecide(q, token, items[i].line) {
      UndecidedLine(q, token.job, items[i].line);
    }
    RecordAllInv(q, token, items, now);
  }

  /** No line is named twice, and none of them is decided yet. */
  ghost predicate AllUndecided(decisions: seq<Decision>, items: seq<Item>) {
    && (forall i, j :: 0 <= i < j < |items| ==> items[i].line != items[j].line)
    && (forall i :: 0 <= i < |items| ==> Undecided(decisions, items[i].line))
  }

  lemma {:induction false} UndecidedIsRecorded(q: Quotes, token: Token, items: seq<Item>, now: int)
    requires AllUndecided(q.decisions, items)
    ensures RecordAll(q, token, items, now).Success?
    decreases items
  {
    if items == [] {
    } else {
      var rest := items[1..];
      assert Undecided(q.decisions, items[0].line);
      IndexWhereNone(DecidesBy(token.id, items[0].line), q.decisions);
      var one := RecordOne(q, token, items[0], now).value;
      forall i | 0 <= i < |rest| ensures rest[i] == items[i + 1] && Undecided(one.decisions, rest[i].line) {
        assert Undecided(q.decisions, items[i + 1].line) && items[0].line != items[i + 1].line;
      }
      UndecidedIsRecorded(one, token, rest, now);
    }
  }

  /** The checks of a submission, in terms of the tables: a valid link, lines of its job, no line
      twice, and no decision on any of them by any link whatsoever. */
  ghost predicate MaySubmit(q: Quotes, tokenId: Id, items: seq<Item>, now: int) {
    var k := IndexWhere(TokenIs(tokenId), q.tokens);
    && k < |q.tokens| && !q.tokens[k].revoked && (q.tokens[k].expiresAt.Some? ==> now <= q.tokens[k].expiresAt.value)
    && items != [] && AllUndecided(q.decisions, items)
    && forall i :: 0 <= i < |items| ==>
      LineAt(q.lines, items[i].line).Some? && LineAt(q.lines, items[i].line).value.job == Some(q.tokens[k].job)
  }

  lemma {:induction false} AllowedIsOnJob(q: Quotes, job: Id, line: Id)
    requires Distinct(q.lines)
    ensures LineAllowed(q, job, line) <==> LineAt(q.lines, line).Some? && LineAt(q.lines, line).value.job == Some(job)
  {
    if k :| 0 <= k < |q.lines| && q.lines[k].id == line && q.lines[k].job == Some(job) {
      LineAtMember(q.lines, k);
    }
  }

  lemma {:induction false} AlreadyDecidedClash(q: Quotes, token: Token, items: seq<Item>, now: int, j: nat)
    requires j < |items| && Any(DecidesBy(token.id, items[j].line), q.decisions)
    ensures RecordAll(q, token, items, now).Failure?
    decreases items
  {
    var one := RecordOne(q, token, items[0], now);
    if one.Success? && j > 0 {
      AnyAdd(DecidesBy(token.id, items[j].line), q.decisions, Decision(token.id, items[0].line, items[0].choice, now));
      AlreadyDecidedClash(one.value, token, items[1..], now, j - 1);
    }
  }

  lemma {:induction false} RepeatsClash(q: Quotes, token: Token, items: seq<Item>, now: int, i: nat, j: nat)
    requires i < j < |items| && items[i].line == items[j].line
    ensures RecordAll(q, token, items, now).Failure?
    decreases items
  {
    var one := RecordOne(q, token, items[0], now);
    if one.Success? {
      if i == 0 {
        AnyAdd(DecidesBy(token.id, items[0].line), q.decisions,
               Decision(token.id, items[0].line, items[0].choice, now));
        AlreadyDecidedClash(one.value, token, items[1..], now, j - 1);
      } else {
        RepeatsClash(one.value, token, items[1..], now, i - 1, j - 1);
      }
    }
  }

  lemma {:induction false} DecidedItems(q: Quotes, tokenId: Id, items: seq<Item>, now: int)
    requires Inv(q) && Decide(q, tokenId, items, now).Success?
    ensures AllUndecided(q.decisions, items)
  {
    var token := q.tokens[IndexWhere(TokenIs(tokenId), q.tokens)];
    forall i, j | 0 <= i < j < |items| ensures items[i].line != items[j].line {
      if items[i].line == items[j].line {
        RepeatsClash(q, token, items, now, i, j);
      }
    }
    forall i | 0 <= i < |items| ensures Undecided(q.decisions, items[i].line) {
      UndecidedLine(q, token.job, items[i].line);
    }
  }

  /** In reachable states a submission is accepted exactly when it may be made. */
  lemma {:induction false} DecideExact(q: Quotes, tokenId: Id, items: seq<Item>, now: int)
    requires Inv(q)
    ensures Decide(q, tokenId, items, now).Success? <==> MaySubmit(q, tokenId, items, now)
  {
    var k := IndexWhere(TokenIs(tokenId), q.tokens);
    if k < |q.tokens| {
      var token := q.tokens[k];
      assert TokenJob(q.tokens, token.id) == Some(token.job);
      forall i | 0 <= i < |items| ensures LineAllowed(q, token.job, items[i].line) <==>
        LineAt(q.lines, items[i].line).Some? && LineAt(q.lines, items[i].line).value.job == Some(token.job)
      {
        AllowedIsOnJob(q, token.job, items[i].line);
      }
      if MaySubmit(q, tokenId, items, now) {
        UndecidedIsRecorded(q, token, items, now);
        forall i | 0 <= i < |items| ensures !DecidedOnJob(q, token.job, items[i].line) {
          assert Undecided(q.decisions, items[i].line);
        }
      } else if Decide(q, tokenId, items, now).Success? {
        DecidedItems(q, tokenId, items, now);
      }
    }
  }

  lemma {:induction false} KeepOncePerLine(p: Decision -> bool, decisions: seq<Decision>)
    requires OncePerLine(decisions)
    ensures OncePerLine(Keep(p, decisions))
  {
    if decisions == [] {
    } else {
      var rest := decisions[1..];
      KeepOncePerLine(p, rest);
      var kept := Keep(p, rest);
      forall j | 0 <= j < |kept| ensures kept[j].line != decisions[0].line {
        KeepMember(p, rest, kept[j]);
        var i :| 0 <= i < |rest| && rest[i] == kept[j];
        assert decisions[i + 1] == kept[j];
      }
    }
  }

  /** A reset removes exactly the decisions on lines of that concern. */
  lemma {:induction false} ResetExact(q: Quotes, job: Id, concern: Id, d: Decision)
    requires Inv(q) && ResetConcern(q, job, concern).Success?
    ensures d in ResetConcern(q, job, concern).value.decisions <==>
      d in q.decisions && LineAt(q.lines, d.line).value.concern != Some(concern)
  {
    KeepMember(NotOnLines(ConcernLines(q.lines, concern)), q.decisions, d);
    if d in q.decisions {
      assert DecidedOnOwnJob(q, d);
    }
  }

  lemma {:induction false} ResetInv(q: Quotes, job: Id, concern: Id)
    requires Inv(q) && ResetConcern(q, job, concern).Success?
    ensures Inv(ResetConcern(q, job, concern).value)
  {
    var r := ResetConcern(q, job, concern).value;
    var p := NotOnLines(ConcernLines(q.lines, concern));
    KeepOncePerLine(p, q.decisions);
    forall d | d in r.decisions ensures DecidedOnOwnJob(r, d) && FollowedUp(r, d) {
      KeepMember(p, q.decisions, d);
      assert DecidedOnOwnJob(q, d) && FollowedUp(q, d);
    }
    forall x ensures Any(DecidesLine(x), r.decisions) ==> Any(DecidesLine(x), q.decisions) {
      if Any(DecidesLine(x), r.decisions) {
        var d := r.decisions[IndexWhere(DecidesLine(x), r.decisions)];
        KeepMember(p, q.decisions, d);
        DecisionRefers(q, d);
      }
    }
    forall x | IsDetached(r.lines, x) ensures Anchored(r, x) {
      assert IsDetached(q.lines, x) && Anchored(q, x);
      if Any(DecidesLine(x), q.decisions) && LineAt(q.lines, x).value.concern == None {
        var d := q.decisions[IndexWhere(DecidesLine(x), q.decisions)];
        ResetExact(q, job, concern, d);
        DecisionRefers(r, d);
      }
    }
  }

  // ---- runs ----

  predicate WritesLines(call: Call) {
    !call.Issue? && !call.Submit? && !call.Reset?
  }

  lemma {:induction false} CallLineStep(q: Quotes, call: Call)
    requires Inv(q) && WritesLines(call) && Apply(q, call).Success?
    ensures LineStep(q, Apply(q, call).value)
  {
    match call
    case Create(id, job, dto, user, defaultTax) => CreateLineStep(q, id, job, dto, user, defaultTax);
    case Update(id, dto) => UpdateLineStep(q, id, dto);
    case Remove(id) => RemoveLineStep(q, id);
    case Bulk(save) => BulkLineStep(q, save);
    case _ => OtherLineStep(q, call);
  }

  lemma {:induction false} StepInv(q: Quotes, call: Call)
    requires Inv(q)
    ensures Inv(Step(q, call))
  {
    if Apply(q, call).Success? {
      match call
      case Issue(id, job, jobExists, expiresAt, needsLines) =>
        IssueTokenInv(q, id, job, jobExists, expiresAt, needsLines);
      case Submit(token, items, now) => DecideInv(q, token, items, now);
      case Reset(job, concern) => ResetInv(q, job, concern);
      case _ =>
        CallLineStep(q, call);
        LineStepInv(q, Apply(q, call).value);
    }
  }

  /** Every run of calls, with any ids and any failures in between, keeps the invariant. */
  lemma {:induction false} RunInv(q: Quotes, calls: seq<Call>)
    requires Inv(q)
    ensures Inv(Run(q, calls))
    decreases calls
  {
    if calls == [] {
    } else {
      StepInv(q, calls[0]);
      RunInv(Step(q, calls[0]), calls[1..]);
    }
  }

  lemma {:induction false} DetachedStep(q: Quotes, call: Call, x: Id)
    requires Inv(q) && IsDetached(q.lines, x)
    ensures IsDetached(Step(q, call).lines, x)
  {
    if Apply(q, call).Success? {
      if WritesLines(call) {
        CallLineStep(q, call);
        assert Anchored(q, x) && Referenced(q, x);
        assert StaysOrDetaches(q.lines, Step(q, call).lines, x);
      } else {
        match call
        case Submit(token, items, now) => DecideInv(q, token, items, now);
        case _ =>
      }
    }
  }

  /** A detached line never disappears and never rejoins a job. */
  lemma {:induction false} DetachedForever(q: Quotes, calls: seq<Call>, x: Id)
    requires Inv(q) && IsDetached(q.lines, x)
    ensures IsDetached(Run(q, calls).lines, x)
    decreases calls
  {
    if calls == [] {
    } else {
      var next := Step(q, calls[0]);
      StepInv(q, calls[0]);
      DetachedStep(q, calls[0], x);
      DetachedForever(next, calls[1..], x);
    }
  }

  lemma {:induction false} AppendsDecisions(q: Quotes, call: Call)
    requires Inv(q) && !call.Reset?
    ensures q.decisions <= Step(q, call).decisions
  {
    if Apply(q, call).Success? {
      if WritesLines(call) {
        CallLineStep(q, call);
      } else {
        match call
        case Submit(token, items, now) => DecideInv(q, token, items, now);
        case _ =>
      }
    }
  }

  /** A decision, once made, is final until its concern is reset: any run without resets only
      appends to the decisions. */
  lemma {:induction false} DecisionsAreFinal(q: Quotes, calls: seq<Call>)
    requires Inv(q) && forall i :: 0 <= i < |calls| ==> !calls[i].Reset?
    ensures q.decisions <= Run(q, calls).decisions
    decreases calls
  {
    if calls == [] {
    } else {
      var next := Step(q, calls[0]);
      StepInv(q, calls[0]);
      AppendsDecisions(q, calls[0]);
      assert forall i :: 0 <= i < |calls[1..]| ==> calls[1..][i] == calls[i + 1];
      DecisionsAreFinal(next, calls[1..]);
    }
  }

  /** Reachable states, stated for a reader: one decision per line, no orphan, one follow-up each. */
  lemma {:induction false} ReachableQuotes(concerns: map<Id, Id>, calls: seq<Call>)
    ensures Inv(Run(Quotes(concerns, [], [], [], [], [], []), calls))
  {
    RunInv(Quotes(concerns, [], [], [], [], [], []), calls);
  }

  // ---- repeats inside one submission ----

  /** The service does not look for repeats inside one submission; the unique index on (token, line)
      rejects the whole submission, so nothing is stored. */
  lemma {:induction false} RepeatsAreRejected(q: Quotes, tokenId: Id, items: seq<Item>, now: int, i: nat, j: nat)
    requires i < j < |items| && items[i].line == items[j].line
    ensures Step(q, Submit(tokenId, items, now)) == q
  {
    var k := IndexWhere(TokenIs(tokenId), q.tokens);
    if k < |q.tokens| {
      RepeatsClash(q, q.tokens[k], items, now, i, j);
    }
  }
}
