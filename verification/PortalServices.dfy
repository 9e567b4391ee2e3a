/** The portal's loops: grouping into a map, marking the payload in place, and choosing decisions.
    Each is proved to compute the corresponding function of `Portal`. */
module PortalServices {
  import opened Wrappers
  import opened Sequences
  import opened Sorting
  import opened Quotes
  import opened P = Portal
  import PortalProofs

  /** The map and the lists hold the lines seen so far. */
  ghost predicate Grouped(lines: seq<Line>, keys: seq<Id>, byGroup: map<Id, seq<Line>>, generalLines: seq<Line>) {
    && keys == Keys(lines)
    && (forall x :: x in byGroup <==> x in keys)
    && (forall x :: x in keys ==> byGroup[x] == Keep(InGroup(x), lines))
    && generalLines == Keep(Ungrouped(), lines)
  }

  lemma {:induction false} NoLineInGroup(lines: seq<Line>, key: Id)
    requires key !in Keys(lines)
    ensures Keep(InGroup(key), lines) == []
  {
    PortalProofs.KeysExact(lines);
    assert forall l :: l in lines ==> !InGroup(key)(l);
    KeepNone(InGroup(key), lines);
  }

  lemma {:induction false} KeepSnoc(p: Line -> bool, before: seq<Line>, line: Line)
    ensures Keep(p, before + [line]) == if p(line) then Keep(p, before) + [line] else Keep(p, before)
  {
    KeepAppend(p, before, [line]);
    assert Keep(p, [line]) == if p(line) then [line] else [];
  }

  lemma {:induction false} MemberAdded(
    lines: seq<Line>, i: nat, keys: seq<Id>, byGroup: map<Id, seq<Line>>, generalLines: seq<Line>, members: seq<Line>)
    requires i < |lines| && Grouped(lines[..i], keys, byGroup, generalLines) && GroupKey(lines[i]).Some?
    requires members == if GroupKey(lines[i]).value in byGroup then byGroup[GroupKey(lines[i]).value] else []
    ensures Grouped(lines[..i + 1], AddKey(keys, lines[i]), byGroup[GroupKey(lines[i]).value := members + [lines[i]]],
                    generalLines)
  {
    var gid, after := GroupKey(lines[i]).value, lines[..i + 1];
    var updated := byGroup[gid := members + [lines[i]]];
    assert after == lines[..i] + [lines[i]] && after[..|after| - 1] == lines[..i];
    if gid !in keys {
      NoLineInGroup(lines[..i], gid);
    }
    forall x | x in AddKey(keys, lines[i]) ensures updated[x] == Keep(InGroup(x), after) {
      KeepSnoc(InGroup(x), lines[..i], lines[i]);
    }
    KeepSnoc(Ungrouped(), lines[..i], lines[i]);
  }

  lemma {:induction false} GeneralAdded(lines: seq<Line>, i: nat, keys: seq<Id>, byGroup: map<Id, seq<Line>>,
                                        generalLines: seq<Line>)
    requires i < |lines| && Grouped(lines[..i], keys, byGroup, generalLines) && GroupKey(lines[i]).None?
    ensures Grouped(lines[..i + 1], keys, byGroup, generalLines + [lines[i]])
  {
    var after := lines[..i + 1];
    assert after == lines[..i] + [lines[i]] && after[..|after| - 1] == lines[..i];
    forall x | x in keys ensures byGroup[x] == Keep(InGroup(x), after) {
      KeepSnoc(InGroup(x), lines[..i], lines[i]);
    }
    KeepSnoc(Ungrouped(), lines[..i], lines[i]);
  }

  /** Split the lines by group key, remembering the order of first mention. */
  method GroupLines(lines: seq<Line>) returns (keys: seq<Id>, byGroup: map<Id, seq<Line>>, generalLines: seq<Line>)
    ensures Grouped(lines, keys, byGroup, generalLines)
  {
    keys, byGroup, generalLines := [], map[], [];
    for i := 0 to |lines|
      invariant Grouped(lines[..i], keys, byGroup, generalLines)
    {
      var line := lines[i];
      var gid := GroupKey(line);
      if gid.Some? {
        var members := if gid.value in byGroup then byGroup[gid.value] else [];
        MemberAdded(lines, i, keys, byGroup, generalLines, members);
        if gid.value !in byGroup {
          keys := keys + [gid.value];
        }
        byGroup := byGroup[gid.value := members + [line]];
      } else {
        GeneralAdded(lines, i, keys, byGroup, generalLines);
        generalLines := generalLines + [line];
      }
    }
    assert lines[..|lines|] == lines;
  }

  /** The map holds, for each line, the first decision on it. */
  ghost predicate IndexesDecisions(byLine: map<Id, Decision>, decisions: seq<Decision>) {
    forall x :: DecisionOn(decisions, x) == if x in byLine then Some(byLine[x]) else None
  }

  method IndexDecisions(decisions: seq<Decision>) returns (byLine: map<Id, Decision>)
    ensures IndexesDecisions(byLine, decisions)
  {
    byLine := map[];
    for i := 0 to |decisions|
      invariant IndexesDecisions(byLine, decisions[..i])
    {
      var d := decisions[i];
      assert decisions[..i + 1] == decisions[..i] + [d];
      forall x ensures DecisionOn(decisions[..i + 1], x) ==
        if DecisionOn(decisions[..i], x).None? && d.line == x then Some(d) else DecisionOn(decisions[..i], x)
      {
        IndexWhereAppend(DecidesLine(x), decisions[..i], d);
      }
      if d.line !in byLine {
        byLine := byLine[d.line := d];
      }
    }
    assert decisions[..|decisions|] == decisions;
  }

  /** Mark the lines of one section, collecting the choices made on them. */
  method MarkLines(byLine: map<Id, Decision>, lines: seq<Line>, ghost decisions: seq<Decision>)
    returns (flags: seq<bool>, choices: seq<Choice>, allDecided: bool)
    requires IndexesDecisions(byLine, decisions)
    ensures flags == Flags(decisions, lines) && choices == Choices(decisions, lines)
    ensures allDecided == AllDecided(decisions, lines)
  {
    flags, choices, allDecided := [], [], true;
    for i := 0 to |lines|
      invariant |flags| == i && forall j :: 0 <= j < i ==> flags[j] == DecisionOn(decisions, lines[j].id).None?
      invariant choices == Choices(decisions, lines[..i])
      invariant allDecided == forall j :: 0 <= j < i ==> DecisionOn(decisions, lines[j].id).Some?
    {
      assert lines[..i + 1][..i] == lines[..i];
      flags := flags + [lines[i].id !in byLine];
      if lines[i].id in byLine {
        choices := choices + [byLine[lines[i].id].choice];
      } else {
        allDecided := false;
      }
    }
    assert lines[..|lines|] == lines;
  }

  function Is(c: Choice): Choice -> bool { (x: Choice) => x == c }

  lemma {:induction false} Occurs(c: Choice, choices: seq<Choice>)
    ensures |Keep(Is(c), choices)| > 0 <==> c in choices
  {
    KeepMember(Is(c), choices, c);
    if |Keep(Is(c), choices)| > 0 {
      KeepMember(Is(c), choices, Keep(Is(c), choices)[0]);
    }
  }

  /** Mark one section and summarise it from the counts of each choice. */
  method MarkSection(byLine: map<Id, Decision>, s: Section, ghost decisions: seq<Decision>) returns (marked: Marked)
    requires IndexesDecisions(byLine, decisions)
    ensures marked == Mark(decisions, s)
  {
    var flags, choices, allDecided := MarkLines(byLine, s.lines, decisions);
    var approved, declined, deferred := |Keep(Is(Approved), choices)|, |Keep(Is(Declined), choices)|,
      |Keep(Is(Deferred), choices)|;
    Occurs(Approved, choices);
    Occurs(Declined, choices);
    Occurs(Deferred, choices);
    var summary :=
      if approved > 0 && declined > 0 then Mixed
      else if approved > 0 then AllApproved
      else if declined > 0 then AllDeclined
      else if deferred > 0 then AllDeferred
      else Pending;
    marked := Marked(s, flags, summary, s.lines != [] && allDecided);
  }

  method SumApproved(lines: seq<Line>, decisions: seq<Decision>) returns (sum: real)
    ensures sum == ApprovedTotal(lines, decisions)
  {
    sum := 0.0;
    for i := 0 to |decisions|
      invariant sum + ApprovedTotal(lines, decisions[i..]) == ApprovedTotal(lines, decisions)
    {
      assert decisions[i..] == [decisions[i]] + decisions[i + 1..];
      if decisions[i].choice == Approved {
        var line := LineAt(lines, decisions[i].line);
        if line.Some? {
          sum := sum + line.value.lineTotal;
        }
      }
    }
    assert decisions[|decisions|..] == [];
  }

  class PortalPayload {
    var groups: seq<Marked>
    var grandTotal: real
    var approvedTotal: real
    var hasActionable: bool

    function View(): Payload
      reads this
    {
      Payload(groups, grandTotal, approvedTotal, hasActionable)
    }

    /** The live portal. */
    constructor Load(lines: seq<Line>, ctx: Context, existingDecisions: seq<Decision>)
      ensures View() == Build(lines, ctx, existingDecisions)
    {
      var grouped := BuildSections(lines, ctx);
      var decisionByLine := IndexDecisions(existingDecisions);
      var marked := [];
      for i := 0 to |grouped|
        invariant |marked| == i && forall j :: 0 <= j < i ==> marked[j] == Mark(existingDecisions, grouped[j])
      {
        var m := MarkSection(decisionByLine, grouped[i], existingDecisions);
        marked := marked + [m];
      }
      assert marked == MarkAll(existingDecisions, grouped);
      var approved := SumApproved(lines, existingDecisions);
      groups, grandTotal, approvedTotal := marked, Total(lines), approved;
      hasActionable := exists i :: 0 <= i < |lines| && lines[i].id !in decisionByLine;
    }

    /** Lay the decisions made so far over a released snapshot, group by group and in place. */
    method ApplyImmutableDecisions(existingDecisions: seq<Decision>)
      modifies this
      ensures View() == Overlay(old(View()), existingDecisions)
    {
      var decisionByLine := IndexDecisions(existingDecisions);
      var allLines := FlatLines(groups);
      for i := 0 to |groups|
        invariant |groups| == |old(groups)| && grandTotal == old(grandTotal)
        invariant forall j :: 0 <= j < |groups| ==>
          groups[j] == if j < i then Mark(existingDecisions, old(groups)[j].section) else old(groups)[j]
      {
        var m := MarkSection(decisionByLine, groups[i].section, existingDecisions);
        groups := groups[i := m];
      }
      assert groups == MarkAll(existingDecisions, SectionsOf(old(groups)));
      approvedTotal := SumApproved(allLines, existingDecisions);
      hasActionable := exists i :: 0 <= i < |allLines| && allLines[i].id !in decisionByLine;
    }
  }

  method FlatLines(groups: seq<Marked>) returns (allLines: seq<Line>)
    ensures allLines == AllLines(SectionsOf(groups))
  {
    var sections := SectionsOf(groups);
    allLines := [];
    for i := 0 to |sections|
      invariant allLines == AllLines(sections[..i])
    {
      assert sections[..i + 1] == sections[..i] + [sections[i]];
      PortalProofs.AllLinesAppend(sections[..i], [sections[i]]);
      assert AllLines([sections[i]]) == sections[i].lines;
      allLines := allLines + sections[i].lines;
    }
    assert sections[..|sections|] == sections;
  }

  lemma {:induction false} Regroup<T>(a: seq<T>, x: T, b: seq<T>)
    ensures (a + [x]) + b == a + ([x] + b)
  {
  }

  method BuildKeyed(lines: seq<Line>, ctx: Context, keys: seq<Id>, byGroup: map<Id, seq<Line>>)
    returns (grouped: seq<Section>)
    requires forall x :: x in keys ==> x in byGroup && byGroup[x] == Keep(InGroup(x), lines)
    ensures grouped == KeyedSections(lines, ctx, keys)
  {
    grouped := [];
    for i := 0 to |keys|
      invariant grouped + KeyedSections(lines, ctx, keys[i..]) == KeyedSections(lines, ctx, keys)
    {
      assert keys[i..][0] == keys[i] && keys[i..][1..] == keys[i + 1..];
      var s := SectionFor(ctx, keys[i], byGroup[keys[i]]);
      Regroup(grouped, s, KeyedSections(lines, ctx, keys[i + 1..]));
      grouped := grouped + [s];
    }
    assert keys[|keys|..] == [];
  }

  method BuildEmpty(concerns: seq<Id>, keys: seq<Id>) returns (grouped: seq<Section>)
    ensures grouped == EmptyConcerns(concerns, keys)
  {
    grouped := [];
    for i := 0 to |concerns|
      invariant grouped + EmptyConcerns(concerns[i..], keys) == EmptyConcerns(concerns, keys)
    {
      assert concerns[i..][0] == concerns[i] && concerns[i..][1..] == concerns[i + 1..];
      if concerns[i] !in keys {
        var s := Section(concerns[i], None, true, [], 0.0);
        Regroup(grouped, s, EmptyConcerns(concerns[i + 1..], keys));
        grouped := grouped + [s];
      }
    }
    assert concerns[|concerns|..] == [];
  }

  /** One section per group key, one per concern without a line, and the general one; then sorted. */
  method BuildSections(lines: seq<Line>, ctx: Context) returns (grouped: seq<Section>)
    ensures grouped == Sections(lines, ctx)
  {
    var keys, byGroup, generalLines := GroupLines(lines);
    var keyed := BuildKeyed(lines, ctx, keys, byGroup);
    var empty := BuildEmpty(ctx.concerns, keys);
    grouped := keyed + empty;
    SortSorted(ByType(), generalLines);
    var sorted := Sort(ByType(), generalLines);
    assert |multiset(sorted)| == |multiset(generalLines)|;
    assert |generalLines| == 0 ==> grouped + [] == grouped;
    if |generalLines| > 0 {
      grouped := grouped + [Section("general", None, false, sorted, Total(sorted))];
    }
    grouped := Sort(ByRank(), grouped);
  }

  /** `getImmutableLineDecisions` after its query: rows come in time order. */
  method ImmutableLineDecisions(rows: seq<Decision>) returns (kept: seq<Decision>)
    ensures kept == Immutable(rows)
  {
    var sorted := Sort(ByTime(), rows);
    kept := [];
    for i := 0 to |sorted|
      invariant kept == FirstPerLine(sorted[..i])
    {
      assert sorted[..i + 1][..i] == sorted[..i];
      if !Any(DecidesLine(sorted[i].line), kept) {
        kept := kept + [sorted[i]];
      }
    }
    assert sorted[..|sorted|] == sorted;
  }

  /** The counts of `getAuthStatus`, from one pass over the decisions of all links. */
  method AuthStatusCounts(lines: seq<Line>, allTokenDecisions: seq<Decision>) returns (counts: Counts)
    ensures counts == CountsOf(lines, Scan(allTokenDecisions, Ids(lines)))
    ensures counts.approved + counts.declined + counts.deferred + counts.pending == |lines|
  {
    var activeLineIds := Ids(lines);
    var picks: seq<Decision> := [];
    for i := 0 to |allTokenDecisions|
      invariant picks == Scan(allTokenDecisions[..i], activeLineIds)
    {
      var decision := allTokenDecisions[i];
      assert allTokenDecisions[..i + 1][..i] == allTokenDecisions[..i];
      if decision.line in activeLineIds {
        var existing := IndexWhere(DecidesLine(decision.line), picks);
        if existing == |picks| {
          picks := picks + [decision];
        } else if decision.decidedAt < picks[existing].decidedAt {
          picks := picks[existing := decision];
        }
      }
    }
    assert allTokenDecisions[..|allTokenDecisions|] == allTokenDecisions;
    PortalProofs.CountsAddUp(lines, allTokenDecisions);
    counts := CountsOf(lines, picks);
  }
}
