/** What the portal and the authorisation status answer, read off the lines and the decisions alone:
    the approved amount, what is left to decide, the counts, and what each section says of itself. */
module PortalAnswers {
  import opened Wrappers
  import opened Sequences
  import opened Sorting
  import opened Quotes
  import opened QuoteBulk
  import QuoteProtocol
  import opened Portal
  import opened PortalProofs

  // ---- the decisions on a line ----

  /** Some decision in the list makes this choice on the line. */
  predicate Chosen(decisions: seq<Decision>, line: Id, c: Choice) {
    exists i :: 0 <= i < |decisions| && decisions[i].line == line && decisions[i].choice == c
  }

  predicate Undecided(decisions: seq<Decision>, line: Id) {
    forall i :: 0 <= i < |decisions| ==> decisions[i].line != line
  }

  function WithChoice(decisions: seq<Decision>, c: Choice): Line -> bool { (l: Line) => Chosen(decisions, l.id, c) }

  function WithoutChoice(decisions: seq<Decision>): Line -> bool { (l: Line) => Undecided(decisions, l.id) }

  lemma {:induction false} UndecidedExact(decisions: seq<Decision>, line: Id)
    ensures DecisionOn(decisions, line).None? <==> Undecided(decisions, line)
  {
    IndexWhereFirst(DecidesLine(line), decisions);
    if Undecided(decisions, line) {
      IndexWhereNone(DecidesLine(line), decisions);
    } else {
      var i :| 0 <= i < |decisions| && decisions[i].line == line;
      assert DecidesLine(line)(decisions[i]);
    }
  }

  lemma {:induction false} ChosenSnoc(decisions: seq<Decision>, d: Decision, line: Id, c: Choice)
    ensures Chosen(decisions + [d], line, c) <==> Chosen(decisions, line, c) || (d.line == line && d.choice == c)
  {
    var more := decisions + [d];
    assert more[|decisions|] == d;
    assert forall i :: 0 <= i < |decisions| ==> more[i] == decisions[i];
  }

  // ---- amounts ----

  /** Totals add line by line, and only lines count. */
  lemma {:induction false} TotalSnoc(lines: seq<Line>, l: Line)
    ensures Total([]) == 0.0 && Total(lines + [l]) == Total(lines) + l.lineTotal
  {
    TotalAppend(lines, [l]);
    assert [l][1..] == [];
  }

  lemma {:induction false} LineAtCons(l: Line, rest: seq<Line>, x: Id)
    ensures LineAt([l] + rest, x) == if l.id == x then Some(l) else LineAt(rest, x)
  {
    assert ([l] + rest)[1..] == rest;
  }

  /** What letting one more line through adds to the total and to the number of the lines let through. */
  lemma {:induction false} OneMoreLine(p: Line -> bool, q: Line -> bool, lines: seq<Line>, x: Id)
    requires Distinct(lines) && forall l :: l in lines ==> q(l) == (p(l) || l.id == x)
    requires forall l :: l in lines && l.id == x ==> !p(l)
    ensures Total(Keep(q, lines)) ==
      Total(Keep(p, lines)) + if LineAt(lines, x).Some? then LineAt(lines, x).value.lineTotal else 0.0
    ensures |Keep(q, lines)| == |Keep(p, lines)| + if LineAt(lines, x).Some? then 1 else 0
  {
    if lines == [] {
    } else {
      var l, rest := lines[0], lines[1..];
      assert lines == [l] + rest && forall i :: 0 <= i < |rest| ==> rest[i] == lines[i + 1];
      LineAtCons(l, rest, x);
      KeepCons(p, l, rest);
      KeepCons(q, l, rest);
      if l.id == x {
        KeepSame(p, q, rest);
      } else {
        OneMoreLine(p, q, rest, x);
      }
    }
  }

  /** A further decision adds the price of its line when it approves one, and nothing otherwise. */
  lemma {:induction false} ApprovedSnoc(lines: seq<Line>, decisions: seq<Decision>, d: Decision)
    ensures ApprovedTotal(lines, decisions + [d]) == ApprovedTotal(lines, decisions) +
      if d.choice == Approved && LineAt(lines, d.line).Some? then LineAt(lines, d.line).value.lineTotal else 0.0
    decreases decisions
  {
    var more := decisions + [d];
    if decisions == [] {
      assert more[0] == d && more[1..] == [];
    } else {
      assert more[0] == decisions[0] && more[1..] == decisions[1..] + [d];
      ApprovedSnoc(lines, decisions[1..], d);
    }
  }

  lemma {:induction false} ApprovedExact(lines: seq<Line>, decisions: seq<Decision>)
    requires Distinct(lines) && QuoteProtocol.OncePerLine(decisions)
    ensures ApprovedTotal(lines, decisions) == Total(Keep(WithChoice(decisions, Approved), lines))
    decreases decisions
  {
    if decisions == [] {
      KeepNone(WithChoice(decisions, Approved), lines);
    } else {
      var before, d := decisions[..|decisions| - 1], decisions[|decisions| - 1];
      assert decisions == before + [d];
      ApprovedExact(lines, before);
      ApprovedSnoc(lines, before, d);
      var p, q := WithChoice(before, Approved), WithChoice(decisions, Approved);
      forall l ensures q(l) == (p(l) || (d.choice == Approved && l.id == d.line)) {
        ChosenSnoc(before, d, l.id, Approved);
      }
      if d.choice == Approved {
        OneMoreLine(p, q, lines, d.line);
      } else {
        KeepSame(p, q, lines);
      }
    }
  }

  /** With at most one decision on a line, the portal shows the total of the approved lines as approved,
      the total of all lines, and whether some line is undecided: built live or laid over a snapshot. */
  lemma {:induction false} AmountsExact(lines: seq<Line>, ctx: Context, earlier: seq<Decision>, later: seq<Decision>)
    requires Distinct(lines) && QuoteProtocol.OncePerLine(later)
    ensures var p := Build(lines, ctx, later);
      && p.approvedTotal == Total(Keep(WithChoice(later, Approved), lines))
      && p.grandTotal == Total(lines)
      && (p.hasActionable <==> exists l :: l in lines && Undecided(later, l.id))
      && Overlay(Build(lines, ctx, earlier), later) == p
  {
    ApprovedExact(lines, later);
    OverlayIsRecomputation(lines, ctx, earlier, later);
    forall i | 0 <= i < |lines| ensures DecisionOn(later, lines[i].id).None? <==> Undecided(later, lines[i].id) {
      UndecidedExact(later, lines[i].id);
    }
    if l :| l in lines && Undecided(later, l.id) {
      var i :| 0 <= i < |lines| && lines[i] == l;
    }
  }

  lemma {:induction false} OnceEach(decisions: seq<Decision>)
    ensures QuoteProtocol.OncePerLine(FirstPerLine(decisions))
  {
    if decisions == [] {
    } else {
      var kept, d := FirstPerLine(decisions[..|decisions| - 1]), decisions[|decisions| - 1];
      OnceEach(decisions[..|decisions| - 1]);
      IndexWhereFirst(DecidesLine(d.line), kept);
    }
  }

  /** The same for whatever rows are stored: the services hand on the first decision of each line. */
  lemma {:induction false} AmountsOfRows(lines: seq<Line>, ctx: Context, earlier: seq<Decision>, rows: seq<Decision>)
    requires Distinct(lines)
    ensures var p := Build(lines, ctx, Immutable(rows));
      && p.approvedTotal == Total(Keep(WithChoice(Immutable(rows), Approved), lines))
      && (p.hasActionable <==> exists l :: l in lines && Undecided(Immutable(rows), l.id))
      && Overlay(Build(lines, ctx, earlier), Immutable(rows)) == p
  {
    OnceEach(Sort(ByTime(), rows));
    AmountsExact(lines, ctx, earlier, Immutable(rows));
  }

  /** Approving a line raises the approved total by that line; declining or deferring leaves it. */
  lemma {:induction false} NextDecision(lines: seq<Line>, ctx: Context, earlier: seq<Decision>,
                                        decisions: seq<Decision>, d: Decision, k: nat)
    requires Distinct(lines) && k < |lines| && lines[k].id == d.line
    ensures var raised := Build(lines, ctx, decisions).approvedTotal +
        if d.choice == Approved then lines[k].lineTotal else 0.0;
      && Build(lines, ctx, decisions + [d]).approvedTotal == raised
      && Overlay(Build(lines, ctx, earlier), decisions + [d]).approvedTotal == raised
  {
    LineAtMember(lines, k);
    ApprovedSnoc(lines, decisions, d);
    OverlayIsRecomputation(lines, ctx, earlier, decisions + [d]);
  }

  // ---- counts ----

  lemma {:induction false} CountChoice(lines: seq<Line>, picks: seq<Decision>, c: Choice)
    requires Distinct(lines) && QuoteProtocol.OncePerLine(picks) && forall d :: d in picks ==> d.line in Ids(lines)
    ensures |Keep(ChoiceIs(c), picks)| == |Keep(WithChoice(picks, c), lines)|
    decreases picks
  {
    if picks == [] {
      KeepNone(WithChoice(picks, c), lines);
    } else {
      var before, d := picks[..|picks| - 1], picks[|picks| - 1];
      assert picks == before + [d];
      CountChoice(lines, before, c);
      KeepAppend(ChoiceIs(c), before, [d]);
      var p, q := WithChoice(before, c), WithChoice(picks, c);
      forall l ensures q(l) == (p(l) || (d.choice == c && l.id == d.line)) {
        ChosenSnoc(before, d, l.id, c);
      }
      if d.choice == c {
        var k :| 0 <= k < |lines| && lines[k].id == d.line;
        LineAtMember(lines, k);
        OneMoreLine(p, q, lines, d.line);
      } else {
        KeepSame(p, q, lines);
      }
    }
  }

  lemma {:induction false} CountUndecided(lines: seq<Line>, picks: seq<Decision>)
    requires Distinct(lines) && QuoteProtocol.OncePerLine(picks) && forall d :: d in picks ==> d.line in Ids(lines)
    ensures |lines| == |picks| + |Keep(WithoutChoice(picks), lines)|
    decreases picks
  {
    if picks == [] {
      KeepAll(WithoutChoice(picks), lines);
    } else {
      var before, d := picks[..|picks| - 1], picks[|picks| - 1];
      assert picks == before + [d];
      CountUndecided(lines, before);
      var k :| 0 <= k < |lines| && lines[k].id == d.line;
      LineAtMember(lines, k);
      assert Undecided(before, d.line) && forall i :: 0 <= i < |before| ==> picks[i] == before[i];
      OneMoreLine(WithoutChoice(picks), WithoutChoice(before), lines, d.line);
    }
  }

  lemma {:induction false} PicksCover(decisions: seq<Decision>, active: set<Id>, x: Id)
    requires x in active
    ensures Undecided(Scan(decisions, active), x) <==> Undecided(decisions, x)
  {
    ScanPicksEarliest(decisions, active, x);
    UndecidedExact(Scan(decisions, active), x);
  }

  /** The status counts are numbers of lines: those whose first decision makes each choice, and those
      that nobody has decided. */
  lemma {:induction false} CountsExact(lines: seq<Line>, decisions: seq<Decision>)
    requires Distinct(lines)
    ensures var picks := Scan(decisions, Ids(lines));
      CountsOf(lines, picks) ==
        Counts(|lines|, |Keep(WithChoice(picks, Approved), lines)|, |Keep(WithChoice(picks, Declined), lines)|,
               |Keep(WithChoice(picks, Deferred), lines)|, |Keep(WithoutChoice(decisions), lines)|)
  {
    var picks := Scan(decisions, Ids(lines));
    ScanIsActive(decisions, Ids(lines));
    CountChoice(lines, picks, Approved);
    CountChoice(lines, picks, Declined);
    CountChoice(lines, picks, Deferred);
    CountUndecided(lines, picks);
    forall l | l in lines ensures WithoutChoice(picks)(l) == WithoutChoice(decisions)(l) {
      PicksCover(decisions, Ids(lines), l.id);
    }
    KeepSame(WithoutChoice(picks), WithoutChoice(decisions), lines);
  }

  // ---- what a section says of itself ----

  /** Some line of the section has the choice as its decision. */
  predicate Somewhere(decisions: seq<Decision>, s: Section, c: Choice) {
    exists l :: l in s.lines && DecisionOn(decisions, l.id).Some? && DecisionOn(decisions, l.id).value.choice == c
  }

  /** A section is mixed when it holds both approved and declined lines; deferred lines show only when
      it holds neither, and a section without decisions is pending. */
  lemma {:induction false} SummaryExact(decisions: seq<Decision>, s: Section)
    ensures var summary := Mark(decisions, s).summary;
      && (summary == Mixed <==> Somewhere(decisions, s, Approved) && Somewhere(decisions, s, Declined))
      && (summary == AllApproved <==> Somewhere(decisions, s, Approved) && !Somewhere(decisions, s, Declined))
      && (summary == AllDeclined <==> !Somewhere(decisions, s, Approved) && Somewhere(decisions, s, Declined))
      && (summary == Pending <==> forall i :: 0 <= i < |s.lines| ==> Undecided(decisions, s.lines[i].id))
  {
    ChoicesExact(decisions, s.lines, Approved);
    ChoicesExact(decisions, s.lines, Declined);
    ChoicesExact(decisions, s.lines, Deferred);
    forall i | 0 <= i < |s.lines|
      ensures DecisionOn(decisions, s.lines[i].id).None? <==> Undecided(decisions, s.lines[i].id)
    {
      UndecidedExact(decisions, s.lines[i].id);
    }
  }

  function Urgency(s: Section): nat {
    match s.severity
    case Some(Red) => 0
    case Some(Amber) => 1
    case None => if s.isCustom then 2 else if s.key == "general" then 3 else 4
  }

  /** Labour stands before parts, and parts before sublet work. */
  ghost predicate InTypeOrder(lines: seq<Line>) {
    forall i, j :: 0 <= i < j < |lines| ==>
      && (lines[j].kind == Labour ==> lines[i].kind == Labour)
      && (lines[i].kind == Sublet ==> lines[j].kind == Sublet)
  }

  /** A concern's section is custom and has no severity; another key takes the severity of its finding,
      and is custom when its first line belongs to a quote group; the rest is the general section. */
  predicate Described(ctx: Context, s: Section) {
    || (s.key in ctx.concerns && s.severity == None && s.isCustom)
    || (s.key !in ctx.concerns && s.lines != []
        && s.severity == (if s.key in ctx.findings then Some(ctx.findings[s.key]) else None)
        && s.isCustom == s.lines[0].group.Some?)
    || (s.key == "general" && s.lines != [] && s.severity == None && !s.isCustom)
  }

  lemma {:induction false} KeyedDescribed(lines: seq<Line>, ctx: Context, keys: seq<Id>, s: Section)
    requires s in KeyedSections(lines, ctx, keys) && forall key :: key in keys ==> Mentions(lines, key)
    ensures Described(ctx, s)
  {
    var members := Keep(InGroup(keys[0]), lines);
    if s == SectionFor(ctx, keys[0], members) {
      SortSorted(ByType(), members);
      assert keys[0] in keys;
      var i :| 0 <= i < |lines| && GroupKey(lines[i]) == Some(keys[0]);
      KeepMember(InGroup(keys[0]), lines, lines[i]);
      assert |multiset(s.lines)| == |multiset(members)|;
    } else {
      KeyedDescribed(lines, ctx, keys[1..], s);
    }
  }

  lemma {:induction false} EmptyDescribed(ctx: Context, concerns: seq<Id>, keys: seq<Id>, s: Section)
    requires s in EmptyConcerns(concerns, keys) && forall c :: c in concerns ==> c in ctx.concerns
    ensures Described(ctx, s)
  {
    if concerns[0] !in keys && s == Section(concerns[0], None, true, [], 0.0) {
    } else {
      EmptyDescribed(ctx, concerns[1..], keys, s);
    }
  }

  lemma {:induction false} SectionDescribed(lines: seq<Line>, ctx: Context, s: Section)
    requires s in UnsortedSections(lines, ctx)
    ensures Described(ctx, s)
  {
    KeysExact(lines);
    SortSorted(ByType(), Keep(Ungrouped(), lines));
    if s in KeyedSections(lines, ctx, Keys(lines)) {
      KeyedDescribed(lines, ctx, Keys(lines), s);
    } else if s in EmptyConcerns(ctx.concerns, Keys(lines)) {
      EmptyDescribed(ctx, ctx.concerns, Keys(lines), s);
    } else {
      assert s in GeneralSection(lines);
    }
  }

  lemma {:induction false} TypeOrder(lines: seq<Line>)
    requires Sorted(ByType(), lines)
    ensures InTypeOrder(lines)
  {
    forall i, j | 0 <= i < j < |lines|
      ensures lines[j].kind == Labour ==> lines[i].kind == Labour
      ensures lines[i].kind == Sublet ==> lines[j].kind == Sublet
    {
      assert ByType()(lines[i]) <= ByType()(lines[j]);
    }
  }

  lemma {:induction false} UrgencyOrder(sections: seq<Section>, i: nat, j: nat)
    requires Sorted(ByRank(), sections) && i < j < |sections|
    ensures Urgency(sections[i]) <= Urgency(sections[j])
  {
    assert ByRank()(sections[i]) <= ByRank()(sections[j]);
  }

  /** Every section of the portal is described by its key and its first line, urgent sections come
      first, and inside a section labour comes before parts and parts before sublet work. */
  lemma {:induction false} SectionsDescribed(lines: seq<Line>, ctx: Context)
    ensures var sections := Sections(lines, ctx);
      && (forall i, j :: 0 <= i < j < |sections| ==> Urgency(sections[i]) <= Urgency(sections[j]))
      && forall s :: s in sections ==> InTypeOrder(s.lines) && Described(ctx, s)
  {
    var sections := Sections(lines, ctx);
    SectionsOrdered(lines, ctx);
    SortSorted(ByRank(), UnsortedSections(lines, ctx));
    forall i, j | 0 <= i < j < |sections| ensures Urgency(sections[i]) <= Urgency(sections[j]) {
      UrgencyOrder(sections, i, j);
    }
    forall s | s in sections ensures InTypeOrder(s.lines) && Described(ctx, s) {
      assert HoldsItsLines(lines, s) && s in multiset(sections);
      TypeOrder(s.lines);
      SectionDescribed(lines, ctx, s);
    }
  }
}
