/** The portal's grouping is a partition, its overlay is a recomputation, and the two ways of
    choosing the decision that counts agree. */
module PortalProofs {
  import opened Wrappers
  import opened Sequences
  import opened Sorting
  import opened Quotes
  import opened QuoteBulk
  import QuoteProtocol
  import opened Portal

  // ---- partition ----

  predicate Mentions(lines: seq<Line>, key: Id) { exists i :: 0 <= i < |lines| && GroupKey(lines[i]) == Some(key) }

  lemma {:induction false} MentionsLast(lines: seq<Line>, key: Id)
    requires lines != []
    ensures Mentions(lines, key) <==>
      Mentions(lines[..|lines| - 1], key) || GroupKey(lines[|lines| - 1]) == Some(key)
  {
    var before := lines[..|lines| - 1];
    if i :| 0 <= i < |before| && GroupKey(before[i]) == Some(key) {
      assert GroupKey(lines[i]) == Some(key);
    }
    if i :| 0 <= i < |before| && GroupKey(lines[i]) == Some(key) {
      assert GroupKey(before[i]) == Some(key);
    }
  }

  lemma {:induction false} KeysExact(lines: seq<Line>)
    ensures forall x :: x in Keys(lines) <==> Mentions(lines, x)
    ensures forall i, j :: 0 <= i < j < |Keys(lines)| ==> Keys(lines)[i] != Keys(lines)[j]
  {
    if lines == [] {
    } else {
      var n := |lines| - 1;
      KeysExact(lines[..n]);
      forall x ensures x in Keys(lines) <==> Mentions(lines, x) {
        MentionsLast(lines, x);
      }
    }
  }

  lemma {:induction false} AllLinesAppend(a: seq<Section>, b: seq<Section>)
    ensures AllLines(a + b) == AllLines(a) + AllLines(b)
  {
    if a == [] {
      assert a + b == b;
    } else {
      assert (a + b)[0] == a[0] && (a + b)[1..] == a[1..] + b;
      AllLinesAppend(a[1..], b);
      assert a[0].lines + (AllLines(a[1..]) + AllLines(b)) == (a[0].lines + AllLines(a[1..])) + AllLines(b);
    }
  }

  lemma {:induction false} AllLinesCount(a: seq<Section>, b: seq<Section>, l: Line)
    ensures multiset(AllLines(a + b))[l] == multiset(AllLines(a))[l] + multiset(AllLines(b))[l]
  {
    AllLinesAppend(a, b);
  }

  lemma {:induction false} SectionCount(lines: seq<Line>, ctx: Context, key: Id, l: Line)
    ensures multiset(AllLines([SectionFor(ctx, key, Keep(InGroup(key), lines))]))[l] ==
      if GroupKey(l) == Some(key) then multiset(lines)[l] else 0
  {
    var members := Keep(InGroup(key), lines);
    SortSorted(ByType(), members);
    KeepMultiset(InGroup(key), lines, l);
    assert AllLines([SectionFor(ctx, key, members)]) == Sort(ByType(), members);
  }

  lemma {:induction false} KeyedCount(lines: seq<Line>, ctx: Context, keys: seq<Id>, l: Line)
    requires forall i, j :: 0 <= i < j < |keys| ==> keys[i] != keys[j]
    ensures multiset(AllLines(KeyedSections(lines, ctx, keys)))[l] ==
      if GroupKey(l).Some? && GroupKey(l).value in keys then multiset(lines)[l] else 0
  {
    if keys == [] {
    } else {
      KeyedCount(lines, ctx, keys[1..], l);
      SectionCount(lines, ctx, keys[0], l);
      AllLinesCount([SectionFor(ctx, keys[0], Keep(InGroup(keys[0]), lines))], KeyedSections(lines, ctx, keys[1..]), l);
      assert keys == [keys[0]] + keys[1..];
    }
  }

  lemma {:induction false} EmptyConcernsHaveNoLines(concerns: seq<Id>, keys: seq<Id>)
    ensures AllLines(EmptyConcerns(concerns, keys)) == []
  {
    if concerns == [] {
    } else {
      EmptyConcernsHaveNoLines(concerns[1..], keys);
    }
  }

  lemma {:induction false} GeneralCount(lines: seq<Line>, l: Line)
    ensures multiset(AllLines(GeneralSection(lines)))[l] == if GroupKey(l).None? then multiset(lines)[l] else 0
  {
    var members := Keep(Ungrouped(), lines);
    SortSorted(ByType(), members);
    KeepMultiset(Ungrouped(), lines, l);
    assert |multiset(members)| == |members|;
  }

  lemma {:induction false} KeyIsCounted(lines: seq<Line>, l: Line)
    ensures GroupKey(l).Some? && GroupKey(l).value !in Keys(lines) ==> multiset(lines)[l] == 0
  {
    KeysExact(lines);
    if l in multiset(lines) && GroupKey(l).Some? {
      var i :| 0 <= i < |lines| && lines[i] == l;
      assert GroupKey(lines[i]) == Some(GroupKey(l).value);
    }
  }

  lemma {:induction false} UnsortedCount(lines: seq<Line>, ctx: Context, l: Line)
    ensures multiset(AllLines(UnsortedSections(lines, ctx)))[l] == multiset(lines)[l]
  {
    var keyed, empty := KeyedSections(lines, ctx, Keys(lines)), EmptyConcerns(ctx.concerns, Keys(lines));
    AllLinesCount(keyed + empty, GeneralSection(lines), l);
    AllLinesCount(keyed, empty, l);
    EmptyConcernsHaveNoLines(ctx.concerns, Keys(lines));
    KeyIsCounted(lines, l);
    KeysExact(lines);
    KeyedCount(lines, ctx, Keys(lines), l);
    GeneralCount(lines, l);
  }

  lemma {:induction false} AllLinesInsert(s: Section, sections: seq<Section>)
    ensures multiset(AllLines(Insert(ByRank(), s, sections))) == multiset(s.lines) + multiset(AllLines(sections))
  {
    if sections == [] || ByRank()(s) <= ByRank()(sections[0]) {
      assert ([s] + sections)[0] == s && ([s] + sections)[1..] == sections;
    } else {
      var rest := Insert(ByRank(), s, sections[1..]);
      AllLinesInsert(s, sections[1..]);
      assert ([sections[0]] + rest)[0] == sections[0] && ([sections[0]] + rest)[1..] == rest;
    }
  }

  lemma {:induction false} AllLinesSort(sections: seq<Section>)
    ensures multiset(AllLines(Sort(ByRank(), sections))) == multiset(AllLines(sections))
  {
    if sections == [] {
    } else {
      AllLinesSort(sections[1..]);
      AllLinesInsert(sections[0], Sort(ByRank(), sections[1..]));
    }
  }

  /** Every estimate line lands in exactly one section. */
  lemma {:induction false} Partition(lines: seq<Line>, ctx: Context)
    ensures multiset(AllLines(Sections(lines, ctx))) == multiset(lines)
  {
    AllLinesSort(UnsortedSections(lines, ctx));
    forall l ensures multiset(AllLines(UnsortedSections(lines, ctx)))[l] == multiset(lines)[l] {
      UnsortedCount(lines, ctx, l);
    }
  }

  /** The lines that belong to a section: those with its key, or all ungrouped ones. */
  ghost predicate HoldsItsLines(lines: seq<Line>, s: Section) {
    && Sorted(ByType(), s.lines)
    && s.total == Total(s.lines)
    && (multiset(s.lines) == multiset(Keep(InGroup(s.key), lines))
        || (s.key == "general" && multiset(s.lines) == multiset(Keep(Ungrouped(), lines))))
  }

  lemma {:induction false} KeyedHold(lines: seq<Line>, ctx: Context, keys: seq<Id>, s: Section)
    requires s in KeyedSections(lines, ctx, keys)
    ensures HoldsItsLines(lines, s)
  {
    if s == SectionFor(ctx, keys[0], Keep(InGroup(keys[0]), lines)) {
      SortSorted(ByType(), Keep(InGroup(keys[0]), lines));
    } else {
      KeyedHold(lines, ctx, keys[1..], s);
    }
  }

  lemma {:induction false} EmptyConcernsHold(lines: seq<Line>, concerns: seq<Id>, s: Section)
    requires s in EmptyConcerns(concerns, Keys(lines))
    ensures HoldsItsLines(lines, s)
  {
    if concerns[0] !in Keys(lines) && s == Section(concerns[0], None, true, [], 0.0) {
      KeysExact(lines);
      assert forall l :: l in lines ==> !InGroup(concerns[0])(l);
      KeepNone(InGroup(concerns[0]), lines);
    } else {
      EmptyConcernsHold(lines, concerns[1..], s);
    }
  }

  /** Sections come out in rank order, and each holds exactly its lines, sorted by type. */
  lemma {:induction false} SectionsOrdered(lines: seq<Line>, ctx: Context)
    ensures Sorted(ByRank(), Sections(lines, ctx))
    ensures forall s :: s in Sections(lines, ctx) ==> HoldsItsLines(lines, s)
  {
    SortSorted(ByRank(), UnsortedSections(lines, ctx));
    SortSorted(ByType(), Keep(Ungrouped(), lines));
    forall s | s in Sections(lines, ctx) ensures HoldsItsLines(lines, s) {
      assert s in multiset(Sections(lines, ctx));
      assert s in UnsortedSections(lines, ctx);
      if s in KeyedSections(lines, ctx, Keys(lines)) {
        KeyedHold(lines, ctx, Keys(lines), s);
      } else if s in EmptyConcerns(ctx.concerns, Keys(lines)) {
        EmptyConcernsHold(lines, ctx.concerns, s);
      } else {
        assert s in GeneralSection(lines);
      }
    }
  }

  // ---- one section per key ----

  function KeyIs(key: Id): Section -> bool { (s: Section) => s.key == key }

  lemma {:induction false} InsertCount(p: Section -> bool, s: Section, sections: seq<Section>)
    ensures |Keep(p, Insert(ByRank(), s, sections))| == |Keep(p, [s] + sections)|
  {
    KeepCons(p, s, sections);
    if sections != [] && ByRank()(s) > ByRank()(sections[0]) {
      var rest := sections[1..];
      InsertCount(p, s, rest);
      assert sections == [sections[0]] + rest;
      KeepCons(p, s, rest);
      KeepCons(p, sections[0], rest);
      KeepCons(p, sections[0], Insert(ByRank(), s, rest));
    }
  }

  lemma {:induction false} SortCount(p: Section -> bool, sections: seq<Section>)
    ensures |Keep(p, Sort(ByRank(), sections))| == |Keep(p, sections)|
  {
    if sections == [] {
    } else {
      SortCount(p, sections[1..]);
      InsertCount(p, sections[0], Sort(ByRank(), sections[1..]));
      KeepCons(p, sections[0], Sort(ByRank(), sections[1..]));
    }
  }

  lemma {:induction false} KeyedOnce(lines: seq<Line>, ctx: Context, keys: seq<Id>, key: Id)
    requires forall i, j :: 0 <= i < j < |keys| ==> keys[i] != keys[j]
    ensures |Keep(KeyIs(key), KeyedSections(lines, ctx, keys))| == if key in keys then 1 else 0
  {
    if keys == [] {
    } else {
      KeyedOnce(lines, ctx, keys[1..], key);
      KeepCons(KeyIs(key), SectionFor(ctx, keys[0], Keep(InGroup(keys[0]), lines)),
               KeyedSections(lines, ctx, keys[1..]));
      assert keys == [keys[0]] + keys[1..];
    }
  }

  lemma {:induction false} EmptyOnce(concerns: seq<Id>, keys: seq<Id>, key: Id)
    requires forall i, j :: 0 <= i < j < |concerns| ==> concerns[i] != concerns[j]
    ensures |Keep(KeyIs(key), EmptyConcerns(concerns, keys))| == if key in concerns && key !in keys then 1 else 0
  {
    if concerns == [] {
    } else {
      EmptyOnce(concerns[1..], keys, key);
      KeepCons(KeyIs(key), Section(concerns[0], None, true, [], 0.0), EmptyConcerns(concerns[1..], keys));
      assert concerns == [concerns[0]] + concerns[1..];
    }
  }

  /** The ungrouped lines need the section "general". */
  predicate NeedsGeneral(lines: seq<Line>, key: Id) {
    key == "general" && exists i :: 0 <= i < |lines| && GroupKey(lines[i]) == None
  }

  lemma {:induction false} GeneralOnce(lines: seq<Line>, key: Id)
    ensures |Keep(KeyIs(key), GeneralSection(lines))| == if NeedsGeneral(lines, key) then 1 else 0
  {
    var members := Keep(Ungrouped(), lines);
    SortSorted(ByType(), members);
    assert |multiset(Sort(ByType(), members))| == |multiset(members)|;
    if i :| 0 <= i < |lines| && GroupKey(lines[i]) == None {
      KeepMember(Ungrouped(), lines, lines[i]);
    } else {
      KeepNone(Ungrouped(), lines);
    }
  }

  /** Every key that a line mentions and every concern of the job has exactly one section, the
      ungrouped lines have one more, and there is no other. */
  lemma {:induction false} OneSectionPerKey(lines: seq<Line>, ctx: Context, key: Id)
    requires forall i, j :: 0 <= i < j < |ctx.concerns| ==> ctx.concerns[i] != ctx.concerns[j]
    ensures |Keep(KeyIs(key), Sections(lines, ctx))| ==
      (if key in ctx.concerns || exists i :: 0 <= i < |lines| && GroupKey(lines[i]) == Some(key) then 1 else 0)
      + (if NeedsGeneral(lines, key) then 1 else 0)
  {
    var keyed, empty := KeyedSections(lines, ctx, Keys(lines)), EmptyConcerns(ctx.concerns, Keys(lines));
    KeysExact(lines);
    KeyedOnce(lines, ctx, Keys(lines), key);
    EmptyOnce(ctx.concerns, Keys(lines), key);
    GeneralOnce(lines, key);
    KeepAppend(KeyIs(key), keyed + empty, GeneralSection(lines));
    KeepAppend(KeyIs(key), keyed, empty);
    SortCount(KeyIs(key), UnsortedSections(lines, ctx));
  }

  // ---- totals ----

  lemma {:induction false} TotalAppend(a: seq<Line>, b: seq<Line>)
    ensures Total(a + b) == Total(a) + Total(b)
  {
    if a == [] {
      assert a + b == b;
    } else {
      assert (a + b)[0] == a[0] && (a + b)[1..] == a[1..] + b;
      TotalAppend(a[1..], b);
    }
  }

  lemma {:induction false} TotalWithout(b: seq<Line>, k: nat)
    requires k < |b|
    ensures Total(b) == b[k].lineTotal + Total(b[..k] + b[k + 1..])
  {
    assert b == b[..k] + ([b[k]] + b[k + 1..]);
    TotalAppend(b[..k], [b[k]] + b[k + 1..]);
    TotalAppend(b[..k], b[k + 1..]);
    assert ([b[k]] + b[k + 1..])[1..] == b[k + 1..];
  }

  /** Removing the same line from two permutations leaves permutations. */
  lemma {:induction false} PermutedRest(a: seq<Line>, b: seq<Line>, k: nat)
    requires multiset(a) == multiset(b) && a != [] && k < |b| && b[k] == a[0]
    ensures multiset(a[1..]) == multiset(b[..k] + b[k + 1..])
  {
    var rest := b[..k] + b[k + 1..];
    assert a == [a[0]] + a[1..];
    assert b == b[..k] + [b[k]] + b[k + 1..];
    forall x ensures multiset(a[1..])[x] == multiset(rest)[x] {
      assert multiset(a)[x] == multiset([a[0]])[x] + multiset(a[1..])[x];
      assert multiset(b)[x] == multiset(b[..k])[x] + multiset([b[k]])[x] + multiset(b[k + 1..])[x];
    }
  }

  lemma {:induction false} SomeIndex(a: seq<Line>, b: seq<Line>) returns (k: nat)
    requires multiset(a) == multiset(b) && a != []
    ensures k < |b| && b[k] == a[0]
  {
    assert a[0] in multiset(a) && a[0] in b;
    k :| 0 <= k < |b| && b[k] == a[0];
  }

  lemma {:induction false} TotalPermutation(a: seq<Line>, b: seq<Line>)
    requires multiset(a) == multiset(b)
    ensures Total(a) == Total(b)
  {
    assert |a| == |multiset(a)| == |multiset(b)| == |b|;
    if a == [] {
    } else {
      var k := SomeIndex(a, b);
      PermutedRest(a, b, k);
      TotalPermutation(a[1..], b[..k] + b[k + 1..]);
      TotalWithout(b, k);
    }
  }

  function SectionTotals(sections: seq<Section>): real {
    if sections == [] then 0.0 else sections[0].total + SectionTotals(sections[1..])
  }

  lemma {:induction false} SectionTotalsAreLineTotals(sections: seq<Section>)
    requires forall s :: s in sections ==> s.total == Total(s.lines)
    ensures SectionTotals(sections) == Total(AllLines(sections))
  {
    if sections == [] {
    } else {
      SectionTotalsAreLineTotals(sections[1..]);
      TotalAppend(sections[0].lines, AllLines(sections[1..]));
    }
  }

  /** The section totals add up to the grand total. */
  lemma {:induction false} TotalsAddUp(lines: seq<Line>, ctx: Context)
    ensures SectionTotals(Sections(lines, ctx)) == Total(lines)
  {
    SectionsOrdered(lines, ctx);
    forall s | s in Sections(lines, ctx) ensures s.total == Total(s.lines) {
      assert HoldsItsLines(lines, s);
    }
    SectionTotalsAreLineTotals(Sections(lines, ctx));
    Partition(lines, ctx);
    TotalPermutation(AllLines(Sections(lines, ctx)), lines);
  }

  // ---- overlay ----

  lemma {:induction false} SameApprovedTotal(a: seq<Line>, b: seq<Line>, decisions: seq<Decision>)
    requires forall x :: LineAt(a, x) == LineAt(b, x)
    ensures ApprovedTotal(a, decisions) == ApprovedTotal(b, decisions)
    decreases decisions
  {
    if decisions == [] {
    } else {
      SameApprovedTotal(a, b, decisions[1..]);
    }
  }

  lemma {:induction false} PermutedLineAt(a: seq<Line>, b: seq<Line>, x: Id)
    requires multiset(a) == multiset(b) && Distinct(b)
    ensures LineAt(a, x) == LineAt(b, x)
  {
    var i := IndexWhere(LineIs(x), a);
    IndexWhereFirst(LineIs(x), a);
    if i < |a| {
      assert a[i] in multiset(b);
      var k :| 0 <= k < |b| && b[k] == a[i];
      LineAtMember(b, k);
    } else {
      assert forall l :: l in a ==> !LineIs(x)(l);
      forall k | 0 <= k < |b| ensures !LineIs(x)(b[k]) {
        assert b[k] in multiset(a);
      }
      IndexWhereNone(LineIs(x), b);
    }
  }

  lemma {:induction false} PermutedAllDecided(decisions: seq<Decision>, a: seq<Line>, b: seq<Line>)
    requires multiset(a) == multiset(b)
    ensures AllDecided(decisions, a) ==> AllDecided(decisions, b)
  {
    forall i | 0 <= i < |b| && AllDecided(decisions, a) ensures DecisionOn(decisions, b[i].id).Some? {
      assert b[i] in multiset(a);
      var k :| 0 <= k < |a| && a[k] == b[i];
    }
  }

  /** Laying later decisions over a snapshot gives what building the portal live from the same
      lines and those decisions gives, whatever decisions the snapshot was released with. */
  lemma {:induction false} OverlayIsRecomputation(lines: seq<Line>, ctx: Context, earlier: seq<Decision>,
                                                  later: seq<Decision>)
    requires Distinct(lines)
    ensures Overlay(Build(lines, ctx, earlier), later) == Build(lines, ctx, later)
  {
    var sections := Sections(lines, ctx);
    var snapshot := Build(lines, ctx, earlier);
    assert SectionsOf(snapshot.groups) == sections;
    Partition(lines, ctx);
    forall x ensures LineAt(AllLines(sections), x) == LineAt(lines, x) {
      PermutedLineAt(AllLines(sections), lines, x);
    }
    SameApprovedTotal(AllLines(sections), lines, later);
    PermutedAllDecided(later, AllLines(sections), lines);
    PermutedAllDecided(later, lines, AllLines(sections));
  }

  /** Overlays do not accumulate: only the last decision list matters. */
  lemma {:induction false} OverlaysReplace(lines: seq<Line>, ctx: Context, earlier: seq<Decision>, d1: seq<Decision>,
                                           d2: seq<Decision>)
    requires Distinct(lines)
    ensures Overlay(Overlay(Build(lines, ctx, earlier), d1), d2) == Overlay(Build(lines, ctx, earlier), d2)
  {
    OverlayIsRecomputation(lines, ctx, earlier, d1);
    OverlayIsRecomputation(lines, ctx, d1, d2);
    OverlayIsRecomputation(lines, ctx, earlier, d2);
  }

  // ---- which decision counts ----

  /** `d` is a decision on the line and no decision on the line is earlier. */
  ghost predicate Earliest(decisions: seq<Decision>, line: Id, d: Decision) {
    d in decisions && d.line == line && forall e :: e in decisions && e.line == line ==> d.decidedAt <= e.decidedAt
  }

  lemma {:induction false} FirstPerLineExact(decisions: seq<Decision>, x: Id)
    ensures DecisionOn(FirstPerLine(decisions), x) == DecisionOn(decisions, x)
  {
    if decisions == [] {
    } else {
      var n := |decisions| - 1;
      var before, d := decisions[..n], decisions[n];
      assert decisions == before + [d];
      FirstPerLineExact(before, x);
      IndexWhereAppend(DecidesLine(x), before, d);
      IndexWhereAppend(DecidesLine(x), FirstPerLine(before), d);
      FirstPerLineExact(before, d.line);
    }
  }

  lemma {:induction false} ImmutablePicksEarliest(rows: seq<Decision>, x: Id)
    ensures match DecisionOn(Immutable(rows), x)
            case Some(d) => Earliest(rows, x, d)
            case None => forall e :: e in rows ==> e.line != x
  {
    var sorted := Sort(ByTime(), rows);
    SortSorted(ByTime(), rows);
    FirstPerLineExact(sorted, x);
    IndexWhereFirst(DecidesLine(x), sorted);
    var k := IndexWhere(DecidesLine(x), sorted);
    forall e | e in rows && e.line == x ensures k < |sorted| && sorted[k].decidedAt <= e.decidedAt {
      assert e in multiset(sorted);
      var i :| 0 <= i < |sorted| && sorted[i] == e;
      assert DecidesLine(x)(sorted[i]);
      assert k == i || ByTime()(sorted[k]) <= ByTime()(sorted[i]);
    }
    if k < |sorted| {
      assert sorted[k] in multiset(rows);
    }
  }

  lemma {:induction false} ScanOnePick(picks: seq<Decision>, active: set<Id>, d: Decision, x: Id)
    requires x in active
    ensures DecisionOn(ScanOne(picks, active, d), x) ==
      var pick := DecisionOn(picks, x);
      if d.line == x && (pick.None? || d.decidedAt < pick.value.decidedAt) then Some(d) else pick
  {
    var k := IndexWhere(DecidesLine(d.line), picks);
    if d.line in active {
      if k == |picks| {
        IndexWhereAppend(DecidesLine(x), picks, d);
      } else {
        IndexWhereUpdate(DecidesLine(x), picks, k, d);
      }
    }
  }

  lemma {:induction false} ScanPicksEarliest(decisions: seq<Decision>, active: set<Id>, x: Id)
    requires x in active
    ensures match DecisionOn(Scan(decisions, active), x)
            case Some(d) => Earliest(decisions, x, d)
            case None => forall e :: e in decisions ==> e.line != x
  {
    if decisions == [] {
    } else {
      var n := |decisions| - 1;
      var before, d := decisions[..n], decisions[n];
      var picks := Scan(before, active);
      assert decisions == before + [d];
      ScanPicksEarliest(before, active, x);
      ScanOnePick(picks, active, d, x);
    }
  }

  /** The two services choose the same decision for an active line: in whatever order they meet the
      rows, when the earliest time on the line is not shared by two decisions. */
  lemma {:induction false} FirstDecisionWins(rows: seq<Decision>, scanned: seq<Decision>, active: set<Id>, x: Id)
    requires multiset(rows) == multiset(scanned) && x in active
    requires forall d, e :: Earliest(rows, x, d) && Earliest(rows, x, e) ==> d == e
    ensures DecisionOn(Scan(scanned, active), x) == DecisionOn(Immutable(rows), x)
  {
    ScanPicksEarliest(scanned, active, x);
    ImmutablePicksEarliest(rows, x);
    forall e ensures e in rows <==> e in scanned {
      assert e in multiset(rows) <==> e in multiset(scanned);
    }
    var pick := DecisionOn(Scan(scanned, active), x);
    assert pick.Some? ==> Earliest(rows, x, pick.value);
  }

  /** Decisions made after the first one on a line never change the pick, wherever they are stored. */
  lemma {:induction false} LaterNeverWins(rows: seq<Decision>, more: seq<Decision>, extra: multiset<Decision>, x: Id,
                                          first: Decision)
    requires multiset(more) == multiset(rows) + extra
    requires DecisionOn(Immutable(rows), x) == Some(first)
    requires forall e :: (e in extra && e.line == x) || (e in rows && e.line == x && e != first) ==>
      first.decidedAt < e.decidedAt
    ensures DecisionOn(Immutable(more), x) == Some(first)
    ensures forall active :: x in active ==> DecisionOn(Scan(more, active), x) == Some(first)
  {
    ImmutablePicksEarliest(rows, x);
    ImmutablePicksEarliest(more, x);
    assert first in multiset(rows) && first in multiset(more);
    forall e | e in more ensures e in rows || e in extra {
      assert e in multiset(more);
    }
    forall active | x in active ensures DecisionOn(Scan(more, active), x) == Some(first) {
      ScanPicksEarliest(more, active, x);
    }
  }

  // ---- counts ----

  lemma {:induction false} ScanIsActive(decisions: seq<Decision>, active: set<Id>)
    ensures QuoteProtocol.OncePerLine(Scan(decisions, active))
    ensures forall d :: d in Scan(decisions, active) ==> d.line in active
  {
    if decisions == [] {
    } else {
      var n := |decisions| - 1;
      var picks, d := Scan(decisions[..n], active), decisions[n];
      ScanIsActive(decisions[..n], active);
      IndexWhereFirst(DecidesLine(d.line), picks);
    }
  }

  lemma {:induction false} DistinctFit(picks: seq<Decision>, active: set<Id>)
    requires QuoteProtocol.OncePerLine(picks) && forall d :: d in picks ==> d.line in active
    ensures |picks| <= |active|
  {
    if picks == [] {
    } else {
      var n := |picks| - 1;
      forall d | d in picks[..n] ensures d.line in active - {picks[n].line} {
        var i :| 0 <= i < n && picks[..n][i] == d;
        assert picks[i].line != picks[n].line;
      }
      DistinctFit(picks[..n], active - {picks[n].line});
    }
  }

  lemma {:induction false} IdsFit(lines: seq<Line>)
    ensures |Ids(lines)| <= |lines|
  {
    if lines == [] {
    } else {
      var n := |lines| - 1;
      IdsFit(lines[..n]);
      assert Ids(lines) == Ids(lines[..n]) + {lines[n].id} by {
        forall x ensures x in Ids(lines) <==> x in Ids(lines[..n]) + {lines[n].id} {
          if i :| 0 <= i < n && lines[i].id == x {
            assert lines[..n][i].id == x;
          }
        }
      }
    }
  }

  lemma {:induction false} ChoicesCover(picks: seq<Decision>)
    ensures |Keep(ChoiceIs(Approved), picks)| + |Keep(ChoiceIs(Declined), picks)| +
      |Keep(ChoiceIs(Deferred), picks)| == |picks|
  {
    if picks == [] {
    } else {
      ChoicesCover(picks[1..]);
    }
  }

  /** Approved, declined, deferred and pending lines account for every line of the job. */
  lemma {:induction false} CountsAddUp(lines: seq<Line>, decisions: seq<Decision>)
    ensures var c := CountsOf(lines, Scan(decisions, Ids(lines)));
      c.approved + c.declined + c.deferred + c.pending == c.total
  {
    var picks := Scan(decisions, Ids(lines));
    ScanIsActive(decisions, Ids(lines));
    DistinctFit(picks, Ids(lines));
    IdsFit(lines);
    ChoicesCover(picks);
  }

  /** In every reachable state a line has at most one decision, so both services report that one. */
  lemma {:induction false} ReachablePicks(concerns: map<Id, Id>, calls: seq<Call>, active: set<Id>, d: Decision)
    requires d in Run(Quotes(concerns, [], [], [], [], [], []), calls).decisions && d.line in active
    ensures var rows := Run(Quotes(concerns, [], [], [], [], [], []), calls).decisions;
      DecisionOn(Immutable(rows), d.line) == Some(d) && DecisionOn(Scan(rows, active), d.line) == Some(d)
  {
    var rows := Run(Quotes(concerns, [], [], [], [], [], []), calls).decisions;
    QuoteProtocol.ReachableQuotes(concerns, calls);
    ImmutablePicksEarliest(rows, d.line);
    ScanPicksEarliest(rows, active, d.line);
    forall e | e in rows && e.line == d.line ensures e == d {
      var i :| 0 <= i < |rows| && rows[i] == e;
      var j :| 0 <= j < |rows| && rows[j] == d;
    }
  }

  // ---- the two summaries ----

  lemma {:induction false} TwoChoices(unique: set<Choice>, c: Choice)
    requires c in unique && |unique| > 1
    ensures (Approved in unique && Declined in unique) ||
      (Deferred in unique && (Approved in unique || Declined in unique))
  {
    assert unique != {c};
    var other :| other in unique && other != c;
    match c case Approved => case Declined => case Deferred =>
  }

  lemma {:induction false} SubsetSize<T>(a: set<T>, b: set<T>)
    requires a <= b
    ensures |a| <= |b|
  {
    assert b == a + (b - a);
  }

  /** The estimate screen and the portal summarise a group alike, except when deferred lines stand
      beside approved ones only or beside declined ones only. */
  lemma {:induction false} SummariesAgree(choices: seq<Choice>)
    ensures EstimateSummary(choices) == PortalSummary(choices) <==>
      !(Deferred in choices && ((Approved in choices) != (Declined in choices)))
  {
    var unique := set i | 0 <= i < |choices| :: choices[i];
    assert forall c :: c in unique <==> c in choices;
    if choices != [] {
      assert choices[0] in unique;
      if |unique| > 1 {
        TwoChoices(unique, choices[0]);
      } else {
        forall c | c in unique ensures c == choices[0] {
          SubsetSize({c, choices[0]}, unique);
        }
      }
    }
  }

  /** Ids of concerns, quote groups and responses are never the same. */
  ghost predicate KindsApart(lines: seq<Line>) {
    forall l, m :: l in lines && m in lines ==>
      && (l.concern.Some? ==> l.concern != m.group && l.concern != m.response)
      && (l.group.Some? ==> l.group != m.response)
  }

  /** Two lines stand in one group of the screen exactly when they do in the portal. */
  ghost predicate SameGroups(lines: seq<Line>) {
    forall l, m :: l in lines && m in lines ==> (ScreenKeyOf(l) == ScreenKeyOf(m) <==> GroupKey(l) == GroupKey(m))
  }

  /** A line that the two sort differently: it has a quote group and a response, and no concern. */
  predicate TwoHomes(l: Line) { l.concern.None? && l.group.Some? && l.response.Some? }

  /** The screen and the portal group the lines alike exactly when the quote group of each line with
      two homes holds the same lines, among those without a concern, as its response. */
  lemma {:induction false} GroupingsAgree(lines: seq<Line>)
    requires KindsApart(lines)
    ensures SameGroups(lines) <==>
      forall l, m :: l in lines && m in lines && TwoHomes(l) && m.concern.None? ==>
        (m.group == l.group <==> m.response == l.response)
  {
    forall l, m | l in lines && m in lines && TwoHomes(l)
      ensures GroupKey(l) == GroupKey(m) <==> m.concern.None? && m.group == l.group
      ensures ScreenKeyOf(l) == ScreenKeyOf(m) <==> m.concern.None? && m.response == l.response
    {
    }
    forall l, m | l in lines && m in lines && !TwoHomes(l) && !TwoHomes(m)
      ensures ScreenKeyOf(l) == ScreenKeyOf(m) <==> GroupKey(l) == GroupKey(m)
    {
    }
  }

  /** Two lines of one quote group, one of them from an inspection: together in the portal, apart on
      the estimate screen. */
  lemma {:induction false} QuoteGroupSplits(a: Line, b: Line, group: Id, response: Id)
    requires a.concern.None? && b.concern.None? && a.group == b.group == Some(group) && group != response
    requires a.response == Some(response) && b.response.None?
    ensures KindsApart([a, b]) && !SameGroups([a, b])
    ensures GroupKey(a) == GroupKey(b) && ScreenKeyOf(a) != ScreenKeyOf(b)
  {
    assert a in [a, b] && b in [a, b];
  }

  lemma {:induction false} ChoicesExact(decisions: seq<Decision>, lines: seq<Line>, c: Choice)
    ensures c in Choices(decisions, lines) <==>
      exists l :: l in lines && DecisionOn(decisions, l.id).Some? && DecisionOn(decisions, l.id).value.choice == c
  {
    if lines == [] {
    } else {
      var before, last := lines[..|lines| - 1], lines[|lines| - 1];
      ChoicesExact(decisions, before, c);
      assert lines == before + [last];
    }
  }

  lemma {:induction false} ChoiceAmong(decisions: seq<Decision>, a: seq<Line>, b: seq<Line>, c: Choice)
    requires multiset(a) == multiset(b) && c in Choices(decisions, a)
    ensures c in Choices(decisions, b)
  {
    ChoicesExact(decisions, a, c);
    ChoicesExact(decisions, b, c);
    var l :| l in a && DecisionOn(decisions, l.id).Some? && DecisionOn(decisions, l.id).value.choice == c;
    assert l in multiset(a);
  }

  /** A summary does not depend on the order of the lines. */
  lemma {:induction false} SummaryAmong(decisions: seq<Decision>, a: seq<Line>, b: seq<Line>)
    requires multiset(a) == multiset(b)
    ensures PortalSummary(Choices(decisions, a)) == PortalSummary(Choices(decisions, b))
  {
    forall c | c in Choices(decisions, a) ensures c in Choices(decisions, b) {
      ChoiceAmong(decisions, a, b, c);
    }
    forall c | c in Choices(decisions, b) ensures c in Choices(decisions, a) {
      ChoiceAmong(decisions, b, a, c);
    }
  }

  /** Where the groupings agree, a line has the same summary on both screens, except when deferred
      lines of its group stand beside approved ones only or beside declined ones only. */
  lemma {:induction false} SameSummaries(lines: seq<Line>, ctx: Context, decisions: seq<Decision>, l: Line, key: Id)
    requires SameGroups(lines) && l in lines && GroupKey(l) == Some(key)
    ensures var choices := Choices(decisions, Keep(InGroup(key), lines));
      SummaryOnScreen(lines, decisions, l) ==
        Mark(decisions, SectionFor(ctx, key, Keep(InGroup(key), lines))).summary <==>
        !(Deferred in choices && ((Approved in choices) != (Declined in choices)))
  {
    var members := Keep(InGroup(key), lines);
    KeepSame(InScreenGroup(ScreenKeyOf(l)), InGroup(key), lines);
    SortSorted(ByType(), members);
    SummaryAmong(decisions, Sort(ByType(), members), members);
    SummariesAgree(Choices(decisions, members));
  }

  /** A decided line keeps its decision when later ones are added. */
  lemma {:induction false} DecidedStays(decisions: seq<Decision>, later: seq<Decision>, line: Id)
    requires DecisionOn(decisions, line).Some?
    ensures DecisionOn(decisions + later, line) == DecisionOn(decisions, line)
    decreases later
  {
    if later == [] {
      assert decisions + later == decisions;
    } else {
      IndexWhereAppend(DecidesLine(line), decisions, later[0]);
      assert decisions + later == (decisions + [later[0]]) + later[1..];
      DecidedStays(decisions + [later[0]], later[1..], line);
    }
  }

  lemma {:induction false} ChoicesStay(decisions: seq<Decision>, later: seq<Decision>, lines: seq<Line>)
    requires AllDecided(decisions, lines)
    ensures AllDecided(decisions + later, lines) && Choices(decisions + later, lines) == Choices(decisions, lines)
    decreases lines
  {
    forall i | 0 <= i < |lines|
      ensures DecisionOn(decisions + later, lines[i].id) == DecisionOn(decisions, lines[i].id)
    {
      DecidedStays(decisions, later, lines[i].id);
    }
    if lines == [] {
    } else {
      ChoicesStay(decisions, later, lines[..|lines| - 1]);
    }
  }

  /** A section is locked exactly when it has lines and none of them is actionable; then it stays as
      it is, summary and flags, whatever is decided later. */
  lemma {:induction false} LockedIsFinal(decisions: seq<Decision>, later: seq<Decision>, s: Section)
    ensures Mark(decisions, s).locked <==> s.lines != [] && true !in Mark(decisions, s).actionable
    ensures Mark(decisions, s).locked ==> Mark(decisions + later, s) == Mark(decisions, s)
  {
    if Mark(decisions, s).locked {
      ChoicesStay(decisions, later, s.lines);
    }
  }
}
