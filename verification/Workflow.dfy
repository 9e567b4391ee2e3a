/** Workflow stages: the normaliser that guards what a workshop may save, and the lookups that place
    a job on its board. */
module Workflow {
  import opened Wrappers
  import opened Sequences
  import opened Sorting
  import opened Text
  import opened JobStatus

  datatype Category = BookedLane | ActiveLane | ReadyLane | ClosedLane | CancelledLane

  datatype Stage = Stage(
    key: string, title: string, description: string, status: Status, category: Category,
    color: string, sortOrder: real, required: bool, active: bool)

  /** A text that should be one of a fixed list of names: absent, on the list, or something else. */
  datatype Given<T> = Missing | Named(value: T) | Unknown

  /** A stage as parsed from JSON; an absent text is empty, an absent or non-numeric order is `None`. */
  datatype Raw = Raw(
    key: string, title: string, description: string, status: Given<Status>, category: Given<Category>,
    color: string, sortOrder: Option<real>, required: bool, active: bool)

  datatype Error = BadRequest

  const MAX_KEY: nat := 80
  const MAX_LABEL: nat := 80
  const MAX_DESCRIPTION: nat := 240
  const MAX_COLOR: nat := 24

  function CategoryFor(s: Status): Category {
    match s
    case Booked => BookedLane
    case Ready => ReadyLane
    case Closed => ClosedLane
    case NoShow => CancelledLane
    case _ => ActiveLane
  }

  // ---- normalisation ----

  /** Replace each run of other characters by one underscore. */
  function Squash(s: string, inRun: bool): string
    decreases s
  {
    if s == [] then []
    else if IsKeyChar(s[0]) then [s[0]] + Squash(s[1..], false)
    else if inRun then Squash(s[1..], true)
    else ['_'] + Squash(s[1..], true)
  }

  function NormalizeKey(value: string): string {
    Take(MAX_KEY, Strip(IsUnderscore, Squash(LowerAll(Trim(value)), false)))
  }

  function Spaced(key: string): (r: string)
    ensures |r| == |key|
  {
    seq(|key|, i requires 0 <= i < |key| => if key[i] == '_' then ' ' else key[i])
  }

  function NormalizeLabel(title: string, key: string): string {
    Take(MAX_LABEL, Trim(if title != "" then title else Spaced(key)))
  }

  predicate IsColorChar(c: char) {
    'a' <= c <= 'z' || 'A' <= c <= 'Z' || '0' <= c <= '9' || c == '_' || c == '-'
  }

  function NormalizeColor(color: string): string {
    var kept := Take(MAX_COLOR, Keep(IsColorChar, if color != "" then color else "slate"));
    if kept != "" then kept else "slate"
  }

  /** Status and category default to `in_progress` and to the lane of the status. */
  function StatusOf(raw: Raw): Given<Status> { if raw.status.Missing? then Named(InProgress) else raw.status }

  function CategoryOf(raw: Raw): Given<Category> {
    if !raw.category.Missing? then raw.category
    else if StatusOf(raw).Named? then Named(CategoryFor(StatusOf(raw).value))
    else Named(ActiveLane)
  }

  function NormalizeOne(raw: Raw, index: nat): Result<Stage, Error> {
    var key := NormalizeKey(if raw.key != "" then raw.key else raw.title);
    if key == "" || !StatusOf(raw).Named? || !CategoryOf(raw).Named? then Failure(BadRequest)
    else Success(Stage(key, NormalizeLabel(raw.title, key), Take(MAX_DESCRIPTION, raw.description),
                       StatusOf(raw).value, CategoryOf(raw).value, NormalizeColor(raw.color),
                       if raw.sortOrder.Some? then raw.sortOrder.value else ((index + 1) * 10) as real,
                       raw.required, raw.active))
  }

  function NormalizeEach(raws: seq<Raw>): (each: seq<Result<Stage, Error>>)
    ensures |each| == |raws|
  {
    seq(|raws|, i requires 0 <= i < |raws| => NormalizeOne(raws[i], i))
  }

  predicate HasKeyIn(stages: seq<Stage>, key: string) {
    exists i :: 0 <= i < |stages| && stages[i].key == key
  }

  /** The first `n` stages, unless one is rejected or repeats a key. */
  function Collect(each: seq<Result<Stage, Error>>, n: nat): Result<seq<Stage>, Error>
    requires n <= |each|
  {
    if n == 0 then Success([])
    else
      var before := Collect(each, n - 1);
      if before.Failure? then before
      else if each[n - 1].Failure? || HasKeyIn(before.value, each[n - 1].value.key) then Failure(BadRequest)
      else Success(before.value + [each[n - 1].value])
  }

  function ByOrder(): Stage -> real { (s: Stage) => s.sortOrder }

  function Requires(c: Category): Stage -> bool { (s: Stage) => s.category == c && s.required && s.active }

  const REQUIRED_CATEGORIES: seq<Category> := [BookedLane, ActiveLane, ReadyLane, ClosedLane]

  predicate Covers(stages: seq<Stage>) {
    forall i :: 0 <= i < |REQUIRED_CATEGORIES| ==> IndexWhere(Requires(REQUIRED_CATEGORIES[i]), stages) < |stages|
  }

  function Normalize(raws: seq<Raw>): Result<seq<Stage>, Error> {
    var stages := Collect(NormalizeEach(raws), |raws|);
    if stages.Failure? then stages
    else
      var sorted := Sort(ByOrder(), stages.value);
      if Covers(sorted) then Success(sorted) else Failure(BadRequest)
  }

  // ---- saving and loading ----

  /** What `JSON.stringify` writes for a stage, as the parser reads it back. */
  function Written(s: Stage): Raw {
    Raw(s.key, s.title, s.description, Named(s.status), Named(s.category), s.color, Some(s.sortOrder), s.required,
        s.active)
  }

  function WrittenAll(stages: seq<Stage>): (raws: seq<Raw>)
    ensures |raws| == |stages| && forall i :: 0 <= i < |stages| ==> raws[i] == Written(stages[i])
  {
    seq(|stages|, i requires 0 <= i < |stages| => Written(stages[i]))
  }

  const DEFAULT_STAGES: seq<Stage> := [
    Stage("booked", "Booked", "Customer is booked in or vehicle is received.",
          Booked, BookedLane, "slate", 10.0, true, true),
    Stage("checking", "Checking", "Initial checking, diagnosis, and inspection.",
          Checking, ActiveLane, "amber", 20.0, false, true),
    Stage("estimate_sent", "Estimate Sent", "Estimate is with the customer for review.",
          EstimateSent, ActiveLane, "rose", 30.0, false, true),
    Stage("approved", "Approved", "Customer has approved the work.", Approved, ActiveLane, "pink", 40.0, false, true),
    Stage("in_progress", "In Progress", "Workshop production is active.",
          InProgress, ActiveLane, "blue", 50.0, true, true),
    Stage("waiting_parts", "Waiting Parts", "Job is blocked or waiting for parts.",
          WaitingParts, ActiveLane, "purple", 60.0, false, true),
    Stage("quality_check", "Quality Check", "Final quality checks before delivery.",
          QualityCheck, ActiveLane, "cyan", 70.0, false, true),
    Stage("ready", "Ready", "Vehicle is ready for pickup.", Ready, ReadyLane, "emerald", 80.0, true, true),
    Stage("closed", "Closed", "Vehicle handed over and job closed.", Closed, ClosedLane, "zinc", 90.0, true, true),
    Stage("no_show_cancelled", "No Show / Cancelled", "Booking cancelled or customer did not arrive.",
          NoShow, CancelledLane, "stone", 100.0, false, false)
  ]

  /** The stages in force: what is stored, if it normalises, and the defaults otherwise. The setting
      is the parsed text, or `None` when there is no text or it does not parse to an array. */
  function Stages(setting: Option<seq<Raw>>): seq<Stage> {
    if setting.None? then DEFAULT_STAGES
    else
      var stages := Normalize(setting.value);
      if stages.Success? then stages.value else DEFAULT_STAGES
  }

  // ---- lookups ----

  function ActiveWithStatus(s: Status): Stage -> bool { (x: Stage) => x.active && x.status == s }

  function ActiveInLane(c: Category): Stage -> bool { (x: Stage) => x.active && x.category == c }

  function ActiveWithKey(key: string): Stage -> bool { (x: Stage) => x.key == key && x.active }

  /** The stage a job lands on in a status: an exact match, or the first stage of the lane. */
  function DefaultStage(stages: seq<Stage>, s: Status, lane: Category): Option<Stage> {
    var exact := IndexWhere(ActiveWithStatus(s), stages);
    var first := IndexWhere(ActiveInLane(lane), stages);
    if exact < |stages| then Some(stages[exact]) else if first < |stages| then Some(stages[first]) else None
  }

  /** `defaultWorkflowStageKeyForStatus` of the jobs and authorisation services. */
  function DefaultKey(stages: seq<Stage>, s: Status): Option<string> {
    var stage := DefaultStage(stages, s, CategoryFor(s));
    if stage.Some? then Some(stage.value.key) else None
  }

  /** The copy in the QC service knows only the ready and closed lanes. */
  function QcDefaultKey(stages: seq<Stage>, s: Status): Option<string> {
    var lane := if s == Ready then ReadyLane else if s == Closed then ClosedLane else ActiveLane;
    var stage := DefaultStage(stages, s, lane);
    if stage.Some? then Some(stage.value.key) else None
  }

  /** The copy in the inspections service knows only the active lane. */
  function InspectionDefaultKey(stages: seq<Stage>, s: Status): Option<string> {
    var stage := DefaultStage(stages, s, ActiveLane);
    if stage.Some? then Some(stage.value.key) else None
  }

  function ResolveStage(stages: seq<Stage>, key: string): Result<Stage, Error> {
    var k := IndexWhere(ActiveWithKey(key), stages);
    if k < |stages| then Success(stages[k]) else Failure(BadRequest)
  }

  // ---- the service ----

  class Service {
    var setting: Option<seq<Raw>>

    /** Collect the normalised items with a set of seen keys, up to the first that is rejected or
        repeats a key. */
    method CollectStages(each: seq<Result<Stage, Error>>) returns (r: Result<seq<Stage>, Error>)
      ensures r == Collect(each, |each|)
    {
      var seen: set<string> := {};
      var stages: seq<Stage> := [];
      for index := 0 to |each|
        invariant Collect(each, index) == Success(stages)
        invariant forall key :: key in seen <==> HasKeyIn(stages, key)
      {
        var stage := each[index];
        if stage.Failure? || stage.value.key in seen {
          RejectedEarly(each, index + 1);
          return Failure(BadRequest);
        }
        seen := seen + {stage.value.key};
        KeysWith(stages, stage.value);
        stages := stages + [stage.value];
      }
      return Success(stages);
    }

    /** Map, sort, then look for each required category. */
    method NormalizeStages(input: seq<Raw>) returns (r: Result<seq<Stage>, Error>)
      ensures r == Normalize(input)
    {
      r := CollectStages(NormalizeEach(input));
      if r.Failure? { return; }
      var stages := Sort(ByOrder(), r.value);
      var covered := CoversRequired(stages, REQUIRED_CATEGORIES);
      return if covered then Success(stages) else Failure(BadRequest);
    }

    /** Look for one active required stage of each category. */
    method CoversRequired(stages: seq<Stage>, categories: seq<Category>) returns (covered: bool)
      ensures covered == forall j :: 0 <= j < |categories| ==> IndexWhere(Requires(categories[j]), stages) < |stages|
    {
      for i := 0 to |categories|
        invariant forall j :: 0 <= j < i ==> IndexWhere(Requires(categories[j]), stages) < |stages|
      {
        if IndexWhere(Requires(categories[i]), stages) == |stages| { return false; }
      }
      return true;
    }

    method UpdateStages(input: seq<Raw>) returns (r: Result<seq<Stage>, Error>)
      modifies this
      ensures r == Normalize(input)
      ensures setting == if r.Success? then Some(WrittenAll(r.value)) else old(setting)
    {
      r := NormalizeStages(input);
      if r.Success? {
        setting := Some(WrittenAll(r.value));
      }
    }

    method GetStages() returns (stages: seq<Stage>)
      ensures stages == Stages(setting)
    {
      if setting.None? { return DEFAULT_STAGES; }
      var r := NormalizeStages(setting.value);
      return if r.Success? then r.value else DEFAULT_STAGES;
    }
  }

  lemma {:induction false} KeysWith(stages: seq<Stage>, stage: Stage)
    ensures forall key :: HasKeyIn(stages + [stage], key) <==> HasKeyIn(stages, key) || key == stage.key
  {
    forall key | HasKeyIn(stages, key) || key == stage.key ensures HasKeyIn(stages + [stage], key) {
      if i :| 0 <= i < |stages| && stages[i].key == key {
        assert (stages + [stage])[i].key == key;
      } else {
        assert (stages + [stage])[|stages|].key == key;
      }
    }
  }

  lemma {:induction false} RejectedEarly(each: seq<Result<Stage, Error>>, n: nat)
    requires n <= |each| && Collect(each, n).Failure?
    ensures Collect(each, |each|) == Failure(BadRequest)
    decreases |each| - n
  {
    if n < |each| {
      RejectedEarly(each, n + 1);
    } else {
      match Collect(each, n).error case BadRequest =>
    }
  }
}
