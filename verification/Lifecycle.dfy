/** The life of a job: one status field written by the jobs, inspections, QC and authorisation
    services and by two scheduled tasks, with its timestamps and its history of changes. */
module Lifecycle {
  import opened Wrappers
  import opened JobStatus
  import W = Workflow

  type Id = string
  type Time = int

  datatype WorkshopStage =
    | WaitingTechnician | Diagnosis | EstimatePrep | CustomerApproval | WorkInProgress | FinalTest
    | QualityChecking | ReadyHandover

  datatype Parts = NoParts | OrderParts | WaitingWarehouse | Backorder | PartsReady | Issued

  datatype Job = Job(
    status: Status, stage: Option<WorkshopStage>, stageKey: Option<string>, parts: Option<Parts>,
    arrivedAt: Option<Time>, completedAt: Option<Time>, invoicedAt: Option<Time>, archivedAt: Option<Time>,
    deleted: bool)

  /** A row of the status history. */
  datatype Change = Change(job: Id, from: Option<Status>, to: Status)

  datatype ChecklistStatus = Draft | Started | Submitted | Signed

  datatype Checklist = Checklist(job: Option<Id>, status: ChecklistStatus)

  datatype Answer = Pass | Fail | NotApplicable

  /** `inspected` holds the jobs that have their one inspection. */
  datatype Shop = Shop(jobs: map<Id, Job>, history: seq<Change>, inspected: set<Id>, checklists: map<Id, Checklist>)

  const EMPTY: Shop := Shop(map[], [], {}, map[])

  datatype Error = NotFound | BadRequest | ConstraintFailed

  type Outcome = Result<Shop, Error>

  /** A field of a patch: left out, sent as null, or set. */
  datatype Field<T> = Absent | Null | Set(value: T)

  datatype Patch = Patch(status: Option<Status>, stage: Field<WorkshopStage>, stageKey: Field<string>,
                         parts: Field<Parts>)

  function Apply<T>(f: Field<T>, current: Option<T>): Option<T> {
    match f case Absent => current case Null => None case Set(value) => Some(value)
  }

  // ---- writing a job ----

  predicate Live(s: Shop, id: Id) { id in s.jobs && !s.jobs[id].deleted }

  function StatusAt(s: Shop, id: Id): Option<Status> {
    if id in s.jobs then Some(s.jobs[id].status) else None
  }

  function Write(s: Shop, id: Id, job: Job): Shop {
    s.(jobs := s.jobs[id := job])
  }

  /** Write the job together with the history row of its move. */
  function Move(s: Shop, id: Id, job: Job): Shop
    requires id in s.jobs
  {
    Write(s, id, job).(history := s.history + [Change(id, Some(s.jobs[id].status), job.status)])
  }

  // ---- jobs.service.ts ----

  const NEW_JOB: Job := Job(Booked, None, Some("booked"), Some(NoParts), None, None, None, None, false)

  function Create(s: Shop, id: Id): Outcome {
    if id in s.jobs then Failure(ConstraintFailed)
    else Success(s.(jobs := s.jobs[id := NEW_JOB], history := s.history + [Change(id, None, Booked)]))
  }

  /** A job from the booking import or from booked deferred work: the column defaults, and no history row. */
  const IMPORTED_JOB: Job := Job(Booked, Some(WaitingTechnician), None, Some(NoParts), None, None, None, None, false)

  function CreateImported(s: Shop, id: Id): Outcome {
    if id in s.jobs then Failure(ConstraintFailed) else Success(Write(s, id, IMPORTED_JOB))
  }

  function StageOnEntry(to: Status): Option<WorkshopStage> {
    match to
    case InProgress => Some(WaitingTechnician)
    case QualityCheck => Some(QualityChecking)
    case Ready => Some(ReadyHandover)
    case _ => None
  }

  function PartsOnEntry(to: Status, parts: Option<Parts>): Option<Parts> {
    if to == WaitingParts && (parts == None || parts == Some(NoParts) || parts == Some(PartsReady)) then
      Some(OrderParts)
    else if to == InProgress && parts == Some(PartsReady) then Some(NoParts)
    else parts
  }

  /** The job after an allowed move: stage, parts and the timestamps that the status stands for. */
  function Entered(job: Job, to: Status, key: Option<string>, now: Time): Job {
    var leftClosed := job.status == Closed && to != Closed;
    var leftReady := job.status == Ready && to != Ready && to != Closed;
    Job(to, StageOnEntry(to), key, PartsOnEntry(to, job.parts),
        if to == Booked then None else if to == Checking && job.arrivedAt == None then Some(now) else job.arrivedAt,
        if leftReady then None else if to == Ready then Some(now) else job.completedAt,
        if leftClosed then None else if to == Closed then Some(now) else job.invoicedAt,
        if leftClosed then None else job.archivedAt, job.deleted)
  }

  function Transition(s: Shop, stages: seq<W.Stage>, id: Id, to: Status, now: Time): Outcome {
    if !Live(s, id) then Failure(NotFound)
    else if s.jobs[id].status == to then Success(s)
    else if !CanTransition(s.jobs[id].status, to) then Failure(BadRequest)
    else Success(Move(s, id, Entered(s.jobs[id], to, W.DefaultKey(stages, to), now)))
  }

  function LegacyStage(status: Status, key: string): Option<WorkshopStage> {
    if status == QualityCheck then Some(QualityChecking)
    else if status == Ready then Some(ReadyHandover)
    else if status != InProgress then None
    else if key == "damage_assessment" || key == "inspection" then Some(Diagnosis)
    else if key == "estimate_sent" || key == "waiting_approval" || key == "insurance_approval" then
      Some(CustomerApproval)
    else if key == "paint" || key == "final_test" then Some(FinalTest)
    else Some(WorkInProgress)
  }

  /** The status that a stage on the workshop view stands for. */
  function StatusOfStage(stage: WorkshopStage): Status {
    match stage case QualityChecking => QualityCheck case ReadyHandover => Ready case _ => InProgress
  }

  /** The job after a patch. Only a status sent as such is checked against the state machine; a
      workflow stage replaces it, and a workshop stage replaces both. */
  function Patched(job: Job, stages: seq<W.Stage>, dto: Patch): Result<Job, Error> {
    var resolved :=
      if dto.stageKey.Set? && dto.stageKey.value != "" then Some(W.ResolveStage(stages, dto.stageKey.value)) else None;
    if dto.status.Some? && dto.status.value != job.status && !CanTransition(job.status, dto.status.value) then
      Failure(BadRequest)
    else if resolved.Some? && resolved.value.Failure? then Failure(BadRequest)
    else
      var lane := if resolved.Some? then Some(resolved.value.value) else None;
      var status := if dto.stage.Set? then StatusOfStage(dto.stage.value)
                    else if lane.Some? then lane.value.status
                    else if dto.status.Some? then dto.status.value
                    else job.status;
      var partsReady := dto.parts == Set(PartsReady);
      Success(job.(status := status,
                   stage := if partsReady then Some(WaitingTechnician)
                            else if lane.Some? then LegacyStage(lane.value.status, lane.value.key)
                            else Apply(dto.stage, job.stage),
                   stageKey := if partsReady then Some("in_progress")
                               else if lane.Some? then Some(lane.value.key)
                               else Apply(dto.stageKey, job.stageKey),
                   parts := Apply(dto.parts, job.parts)))
  }

  function Update(s: Shop, stages: seq<W.Stage>, id: Id, dto: Patch): Outcome {
    if !Live(s, id) then Failure(NotFound)
    else
      var patched := Patched(s.jobs[id], stages, dto);
      if patched.Failure? then Failure(patched.error)
      else if patched.value.status != s.jobs[id].status then Success(Move(s, id, patched.value))
      else Success(Write(s, id, patched.value))
  }

  function Unassign(s: Shop, id: Id): Outcome {
    if !Live(s, id) then Failure(NotFound)
    else if s.jobs[id].status == InProgress then Success(Write(s, id, s.jobs[id].(stage := Some(WaitingTechnician))))
    else Success(s)
  }

  function Archive(s: Shop, id: Id, now: Time): Outcome {
    if !Live(s, id) then Failure(NotFound)
    else if s.jobs[id].status != Closed then Failure(BadRequest)
    else Success(Write(s, id, s.jobs[id].(archivedAt := Some(now))))
  }

  function Unarchive(s: Shop, id: Id): Outcome {
    if id !in s.jobs then Failure(NotFound)
    else if s.jobs[id].archivedAt == None then Failure(BadRequest)
    else Success(Write(s, id, s.jobs[id].(archivedAt := None)))
  }

  function Remove(s: Shop, id: Id): Outcome {
    if !Live(s, id) then Failure(NotFound) else Success(Write(s, id, s.jobs[id].(deleted := true)))
  }

  function RemoveAllBooked(s: Shop): Shop {
    s.(jobs := map id | id in s.jobs ::
                 if s.jobs[id].status == Booked then s.jobs[id].(deleted := true) else s.jobs[id])
  }

  // ---- inspections and QC ----

  function StartInspection(s: Shop, stages: seq<W.Stage>, id: Id, now: Time): Outcome {
    if id in s.inspected then Success(s)
    else if id !in s.jobs then Failure(ConstraintFailed)
    else
      var job := s.jobs[id];
      var moved := if job.status == Booked then
                     Move(s, id, job.(status := Checking, stageKey := W.InspectionDefaultKey(stages, Checking),
                                      stage := None,
                                      arrivedAt := if job.arrivedAt.Some? then job.arrivedAt else Some(now)))
                   else s;
      Success(moved.(inspected := s.inspected + {id}))
  }

  predicate HasChecklist(s: Shop, job: Id) {
    exists c :: c in s.checklists && s.checklists[c].job == Some(job)
  }

  function StartChecklist(s: Shop, stages: seq<W.Stage>, checklist: Id, id: Id): Outcome {
    if HasChecklist(s, id) then Success(s)
    else if id !in s.jobs || checklist in s.checklists then Failure(ConstraintFailed)
    else
      var job := s.jobs[id];
      var moved := if job.status == InProgress || job.status == WaitingParts then
                     Move(s, id, job.(status := QualityCheck, stageKey := W.QcDefaultKey(stages, QualityCheck),
                                      stage := Some(QualityChecking)))
                   else s;
      Success(moved.(checklists := s.checklists[checklist := Checklist(Some(id), Started)]))
  }

  /** A checklist passes when it has answers and none of them is a failure. */
  predicate Passes(answers: seq<Answer>) { answers != [] && Fail !in answers }

  function Submit(s: Shop, stages: seq<W.Stage>, checklist: Id, answers: seq<Answer>, now: Time): Outcome {
    if checklist !in s.checklists then Failure(NotFound)
    else if s.checklists[checklist].status == Submitted || s.checklists[checklist].status == Signed then
      Failure(BadRequest)
    else
      var id := s.checklists[checklist].job;
      var moved := if id.Some? && id.value in s.jobs && s.jobs[id.value].status == QualityCheck then
                     var job := s.jobs[id.value];
                     if Passes(answers) then
                       Move(s, id.value, job.(status := Ready, stageKey := W.QcDefaultKey(stages, Ready),
                                              stage := Some(ReadyHandover), completedAt := Some(now)))
                     else
                       Move(s, id.value, job.(status := InProgress, stageKey := W.QcDefaultKey(stages, InProgress),
                                              stage := Some(WaitingTechnician), completedAt := None))
                   else s;
      Success(moved.(checklists := s.checklists[checklist := s.checklists[checklist].(status := Submitted)]))
  }

  /** Reopening a locked checklist leaves the job where it is. */
  function Reopen(s: Shop, checklist: Id): Outcome {
    if checklist !in s.checklists then Failure(NotFound)
    else if s.checklists[checklist].status != Submitted && s.checklists[checklist].status != Signed then
      Failure(BadRequest)
    else Success(s.(checklists := s.checklists[checklist := s.checklists[checklist].(status := Started)]))
  }

  // ---- portal moves ----

  function MovedByPortal(job: Job, stages: seq<W.Stage>, to: Status): Job {
    job.(status := to, stageKey := W.DefaultKey(stages, to), stage := None)
  }

  /** `requestAuthorisation`: an open job with estimate lines goes back to the customer, whatever its
      status. */
  function RequestApproval(s: Shop, stages: seq<W.Stage>, id: Id, hasLines: bool): Outcome {
    if id !in s.jobs then Failure(NotFound)
    else if !hasLines then Failure(BadRequest)
    else if s.jobs[id].status == EstimateSent || s.jobs[id].status == Closed || s.jobs[id].status == NoShow then
      Success(s)
    else Success(Move(s, id, MovedByPortal(s.jobs[id], stages, EstimateSent)))
  }

  /** `decideFromPortal`: an open job counts as approved; no row is added when it already was. */
  function CustomerDecides(s: Shop, stages: seq<W.Stage>, id: Id): Outcome {
    if id !in s.jobs then Failure(NotFound)
    else if s.jobs[id].status == Closed || s.jobs[id].status == NoShow then Success(s)
    else if s.jobs[id].status == Approved then Success(Write(s, id, MovedByPortal(s.jobs[id], stages, Approved)))
    else Success(Move(s, id, MovedByPortal(s.jobs[id], stages, Approved)))
  }

  // ---- scheduled tasks ----

  predicate Missed(job: Job) { job.status == Booked && job.arrivedAt == None }

  /** The end-of-day task writes the jobs and no history. */
  function SweepNoShows(s: Shop): Shop {
    s.(jobs := map id | id in s.jobs ::
                 if Missed(s.jobs[id]) then s.jobs[id].(status := NoShow, stage := None) else s.jobs[id])
  }

  /** Archive the closed jobs in `due`: all of them for the daily task, day-old ones for the service. */
  function ArchiveClosed(s: Shop, due: set<Id>, now: Time): Shop {
    s.(jobs := map id | id in s.jobs ::
                 if id in due && s.jobs[id].status == Closed && s.jobs[id].archivedAt == None
                 then s.jobs[id].(archivedAt := Some(now)) else s.jobs[id])
  }

  // ---- runs ----

  datatype Call =
    | CreateJob(id: Id)
    | ImportJob(id: Id)
    | ChangeStatus(id: Id, to: Status, now: Time)
    | UpdateJob(id: Id, dto: Patch)
    | UnassignTechnician(id: Id)
    | ArchiveJob(id: Id, now: Time)
    | UnarchiveJob(id: Id)
    | RemoveJob(id: Id)
    | BeginInspection(id: Id, now: Time)
    | BeginChecklist(checklist: Id, id: Id)
    | SubmitChecklist(checklist: Id, answers: seq<Answer>, now: Time)
    | ReopenChecklist(checklist: Id)
    | RemoveBooked
    | SendEstimate(id: Id, hasLines: bool)
    | PortalDecision(id: Id)
    | NoShowTask
    | ArchiveTask(due: set<Id>, now: Time)

  function Perform(s: Shop, stages: seq<W.Stage>, call: Call): Outcome {
    match call
    case CreateJob(id) => Create(s, id)
    case ImportJob(id) => CreateImported(s, id)
    case ChangeStatus(id, to, now) => Transition(s, stages, id, to, now)
    case UpdateJob(id, dto) => Update(s, stages, id, dto)
    case UnassignTechnician(id) => Unassign(s, id)
    case ArchiveJob(id, now) => Archive(s, id, now)
    case UnarchiveJob(id) => Unarchive(s, id)
    case RemoveJob(id) => Remove(s, id)
    case BeginInspection(id, now) => StartInspection(s, stages, id, now)
    case BeginChecklist(checklist, id) => StartChecklist(s, stages, checklist, id)
    case SubmitChecklist(checklist, answers, now) => Submit(s, stages, checklist, answers, now)
    case ReopenChecklist(checklist) => Reopen(s, checklist)
    case RemoveBooked => Success(RemoveAllBooked(s))
    case SendEstimate(id, hasLines) => RequestApproval(s, stages, id, hasLines)
    case PortalDecision(id) => CustomerDecides(s, stages, id)
    case NoShowTask => Success(SweepNoShows(s))
    case ArchiveTask(due, now) => Success(ArchiveClosed(s, due, now))
  }

  function Step(s: Shop, stages: seq<W.Stage>, call: Call): Shop {
    var outcome := Perform(s, stages, call);
    if outcome.Success? then outcome.value else s
  }

  /** The shop and the stages in force, which every call reads anew. */
  datatype World = World(shop: Shop, board: seq<W.Stage>)

  /** A call, a board saved by `updateStages` or taken over by `applyTemplate`, or a setting written as
      it is by the settings page. */
  datatype Event = Do(call: Call) | SaveBoard(input: seq<W.Raw>) | WriteSetting(setting: Option<seq<W.Raw>>)

  /** The stages in force after a list was sent: those that the saved list loads as, if it is accepted. */
  function BoardSaved(board: seq<W.Stage>, input: seq<W.Raw>): seq<W.Stage> {
    var saved := W.Normalize(input);
    if saved.Success? then W.Stages(Some(W.WrittenAll(saved.value))) else board
  }

  function Next(w: World, e: Event): World {
    match e
    case Do(call) => w.(shop := Step(w.shop, w.board, call))
    case SaveBoard(input) => w.(board := BoardSaved(w.board, input))
    case WriteSetting(setting) => w.(board := W.Stages(setting))
  }

  function Run(w: World, events: seq<Event>): World
    decreases events
  {
    if events == [] then w else Run(Next(w, events[0]), events[1..])
  }
}
