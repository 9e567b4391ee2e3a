/** The customer portal: how `loadPortal` groups a job's estimate lines and marks them with the
    decisions made so far, how a released snapshot is overlaid with later decisions, and which
    decision counts for a line. */
module Portal {
  import opened Wrappers
  import opened Sequences
  import opened Sorting
  import opened Quotes

  datatype Severity = Red | Amber

  /** The job's concerns in display order, and the abnormal inspection findings. */
  datatype Context = Context(concerns: seq<Id>, findings: map<Id, Severity>)

  datatype Section = Section(key: Id, severity: Option<Severity>, isCustom: bool, lines: seq<Line>, total: real)

  datatype Summary = Pending | AllApproved | AllDeclined | AllDeferred | Mixed

  /** A section with its decision state; `actionable` has one flag per line. */
  datatype Marked = Marked(section: Section, actionable: seq<bool>, summary: Summary, locked: bool)

  datatype Payload = Payload(groups: seq<Marked>, grandTotal: real, approvedTotal: real, hasActionable: bool)

  // ---- grouping ----

  function GroupKey(l: Line): Option<Id> {
    if l.concern.Some? then l.concern else if l.group.Some? then l.group else l.response
  }

  function InGroup(key: Id): Line -> bool { (l: Line) => GroupKey(l) == Some(key) }

  function Ungrouped(): Line -> bool { (l: Line) => GroupKey(l) == None }

  function ByType(): Line -> real {
    (l: Line) => match l.kind case Labour => 0.0 case PartLine => 1.0 case Sublet => 2.0
  }

  function AddKey(keys: seq<Id>, l: Line): seq<Id> {
    if GroupKey(l).Some? && GroupKey(l).value !in keys then keys + [GroupKey(l).value] else keys
  }

  /** The group keys in the order in which the lines first mention them. */
  function Keys(lines: seq<Line>): seq<Id> {
    if lines == [] then [] else AddKey(Keys(lines[..|lines| - 1]), lines[|lines| - 1])
  }

  function Total(lines: seq<Line>): real {
    if lines == [] then 0.0 else lines[0].lineTotal + Total(lines[1..])
  }

  function SectionFor(ctx: Context, key: Id, members: seq<Line>): Section {
    var lines, concern := Sort(ByType(), members), key in ctx.concerns;
    Section(key, if !concern && key in ctx.findings then Some(ctx.findings[key]) else None,
            concern || (lines != [] && lines[0].group.Some?), lines, Total(lines))
  }

  function KeyedSections(lines: seq<Line>, ctx: Context, keys: seq<Id>): seq<Section> {
    if keys == [] then []
    else [SectionFor(ctx, keys[0], Keep(InGroup(keys[0]), lines))] + KeyedSections(lines, ctx, keys[1..])
  }

  /** Concerns without a line still get a section. */
  function EmptyConcerns(concerns: seq<Id>, keys: seq<Id>): seq<Section> {
    if concerns == [] then []
    else if concerns[0] in keys then EmptyConcerns(concerns[1..], keys)
    else [Section(concerns[0], None, true, [], 0.0)] + EmptyConcerns(concerns[1..], keys)
  }

  function GeneralSection(lines: seq<Line>): seq<Section> {
    var general := Sort(ByType(), Keep(Ungrouped(), lines));
    if general == [] then [] else [Section("general", None, false, general, Total(general))]
  }

  function ByRank(): Section -> real {
    (s: Section) =>
      if s.severity == Some(Red) then 0.0
      else if s.severity == Some(Amber) then 1.0
      else if s.isCustom then 2.0
      else if s.key == "general" then 3.0
      else 4.0
  }

  function UnsortedSections(lines: seq<Line>, ctx: Context): seq<Section> {
    KeyedSections(lines, ctx, Keys(lines)) + EmptyConcerns(ctx.concerns, Keys(lines)) + GeneralSection(lines)
  }

  function Sections(lines: seq<Line>, ctx: Context): seq<Section> {
    Sort(ByRank(), UnsortedSections(lines, ctx))
  }

  // ---- decision state ----

  /** The decision that counts for a line in a list: the first one. */
  function DecisionOn(decisions: seq<Decision>, line: Id): Option<Decision> {
    var k := IndexWhere(DecidesLine(line), decisions);
    if k < |decisions| then Some(decisions[k]) else None
  }

  /** The choices made on a section's lines. */
  function Choices(decisions: seq<Decision>, lines: seq<Line>): seq<Choice>
    decreases lines
  {
    if lines == [] then []
    else
      var before, d := Choices(decisions, lines[..|lines| - 1]), DecisionOn(decisions, lines[|lines| - 1].id);
      if d.Some? then before + [d.value.choice] else before
  }

  function PortalSummary(choices: seq<Choice>): Summary {
    if Approved in choices && Declined in choices then Mixed
    else if Approved in choices then AllApproved
    else if Declined in choices then AllDeclined
    else if Deferred in choices then AllDeferred
    else Pending
  }

  predicate AllDecided(decisions: seq<Decision>, lines: seq<Line>) {
    forall i :: 0 <= i < |lines| ==> DecisionOn(decisions, lines[i].id).Some?
  }

  function Flags(decisions: seq<Decision>, lines: seq<Line>): (flags: seq<bool>)
    ensures |flags| == |lines|
    ensures forall i :: 0 <= i < |lines| ==> flags[i] == DecisionOn(decisions, lines[i].id).None?
  {
    seq(|lines|, i requires 0 <= i < |lines| => DecisionOn(decisions, lines[i].id).None?)
  }

  function Mark(decisions: seq<Decision>, s: Section): Marked {
    Marked(s, Flags(decisions, s.lines), PortalSummary(Choices(decisions, s.lines)),
           s.lines != [] && AllDecided(decisions, s.lines))
  }

  function MarkAll(decisions: seq<Decision>, sections: seq<Section>): (marked: seq<Marked>)
    ensures |marked| == |sections|
    ensures forall i :: 0 <= i < |sections| ==> marked[i] == Mark(decisions, sections[i])
  {
    seq(|sections|, i requires 0 <= i < |sections| => Mark(decisions, sections[i]))
  }

  /** The total over the decision list: each approval adds the price of the line it names. */
  function ApprovedTotal(lines: seq<Line>, decisions: seq<Decision>): real
    decreases decisions
  {
    if decisions == [] then 0.0
    else
      var l := LineAt(lines, decisions[0].line);
      (if decisions[0].choice == Approved && l.Some? then l.value.lineTotal else 0.0) +
        ApprovedTotal(lines, decisions[1..])
  }

  /** The portal built live. */
  function Build(lines: seq<Line>, ctx: Context, decisions: seq<Decision>): Payload {
    Payload(MarkAll(decisions, Sections(lines, ctx)), Total(lines), ApprovedTotal(lines, decisions),
            !AllDecided(decisions, lines))
  }

  function SectionsOf(groups: seq<Marked>): (sections: seq<Section>)
    ensures |sections| == |groups|
    ensures forall i :: 0 <= i < |groups| ==> sections[i] == groups[i].section
  {
    seq(|groups|, i requires 0 <= i < |groups| => groups[i].section)
  }

  function AllLines(sections: seq<Section>): seq<Line> {
    if sections == [] then [] else sections[0].lines + AllLines(sections[1..])
  }

  /** A released snapshot with later decisions laid over it; it has no other lines than its own. */
  function Overlay(p: Payload, decisions: seq<Decision>): Payload {
    var lines := AllLines(SectionsOf(p.groups));
    Payload(MarkAll(decisions, SectionsOf(p.groups)), p.grandTotal, ApprovedTotal(lines, decisions),
            !AllDecided(decisions, lines))
  }

  // ---- which decision counts ----

  function ByTime(): Decision -> real { (d: Decision) => d.decidedAt as real }

  /** Keep the first decision of each line. */
  function FirstPerLine(decisions: seq<Decision>): seq<Decision> {
    if decisions == [] then []
    else
      var kept, d := FirstPerLine(decisions[..|decisions| - 1]), decisions[|decisions| - 1];
      if Any(DecidesLine(d.line), kept) then kept else kept + [d]
  }

  /** `getImmutableLineDecisions`: sort by time, then first per line. */
  function Immutable(rows: seq<Decision>): seq<Decision> {
    FirstPerLine(Sort(ByTime(), rows))
  }

  function ScanOne(picks: seq<Decision>, active: set<Id>, d: Decision): seq<Decision> {
    var k := IndexWhere(DecidesLine(d.line), picks);
    if d.line !in active then picks
    else if k == |picks| then picks + [d]
    else if d.decidedAt < picks[k].decidedAt then picks[k := d]
    else picks
  }

  /** `getAuthStatus`: one pass over the decisions of all links, replacing a pick by an earlier one. */
  function Scan(decisions: seq<Decision>, active: set<Id>): seq<Decision> {
    if decisions == [] then []
    else ScanOne(Scan(decisions[..|decisions| - 1], active), active, decisions[|decisions| - 1])
  }

  function Ids(lines: seq<Line>): set<Id> {
    set i | 0 <= i < |lines| :: lines[i].id
  }

  function ChoiceIs(c: Choice): Decision -> bool { (d: Decision) => d.choice == c }

  datatype Counts = Counts(total: nat, approved: nat, declined: nat, deferred: nat, pending: nat)

  function CountsOf(lines: seq<Line>, picks: seq<Decision>): Counts {
    Counts(|lines|, |Keep(ChoiceIs(Approved), picks)|, |Keep(ChoiceIs(Declined), picks)|,
           |Keep(ChoiceIs(Deferred), picks)|, if |lines| >= |picks| then |lines| - |picks| else 0)
  }

  // ---- the estimate screen ----

  /** `decorateLines` groups by concern, then by inspection response, then by quote group, where the
      portal looks for the quote group before the response. */
  datatype ScreenKey = OfConcern(id: Id) | OfResponse(id: Id) | OfQuote(id: Id) | General

  function ScreenKeyOf(l: Line): ScreenKey {
    if l.concern.Some? then OfConcern(l.concern.value)
    else if l.response.Some? then OfResponse(l.response.value)
    else if l.group.Some? then OfQuote(l.group.value)
    else General
  }

  function InScreenGroup(key: ScreenKey): Line -> bool { (l: Line) => ScreenKeyOf(l) == key }

  /** A group is mixed as soon as two different choices occur in it. */
  function EstimateSummary(choices: seq<Choice>): Summary {
    var unique := set i | 0 <= i < |choices| :: choices[i];
    if unique == {} then Pending
    else if |unique| > 1 then Mixed
    else match choices[0] case Approved => AllApproved case Declined => AllDeclined case Deferred => AllDeferred
  }

  /** The group summary that the screen shows beside a line. */
  function SummaryOnScreen(lines: seq<Line>, decisions: seq<Decision>, l: Line): Summary {
    EstimateSummary(Choices(decisions, Keep(InScreenGroup(ScreenKeyOf(l)), lines)))
  }
}
