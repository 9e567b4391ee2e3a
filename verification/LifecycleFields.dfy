/** The life of a job told field by field: which calls write a field, and what they write. */
module LifecycleFields {
  import opened Wrappers
  import opened JobStatus
  import W = Workflow
  import WorkflowProofs
  import opened Lifecycle
  import opened LifecycleProofs

  predicate Unchecked(s: Shop, id: Id) { forall c :: c in s.checklists ==> s.checklists[c].job != Some(id) }

  predicate Open(s: Shop, checklist: Id) {
    checklist in s.checklists && (s.checklists[checklist].status == Draft || s.checklists[checklist].status == Started)
  }

  /** The status that a call gives to a job, when it writes one. */
  function Written(s: Shop, stages: seq<W.Stage>, call: Call, id: Id): Option<Status>
    requires id in s.jobs
  {
    var job := s.jobs[id];
    match call
    case ChangeStatus(moved, to, _) =>
      if moved == id && !job.deleted && CanTransition(job.status, to) then Some(to) else None
    case UpdateJob(patched, dto) =>
      if patched == id && !job.deleted && Accepts(job, stages, dto) then Some(Target(job, stages, dto)) else None
    case BeginInspection(inspected, _) =>
      if inspected == id && id !in s.inspected && job.status == Booked then Some(Checking) else None
    case BeginChecklist(checklist, checked) =>
      if checked == id && Unchecked(s, id) && checklist !in s.checklists
         && (job.status == InProgress || job.status == WaitingParts) then Some(QualityCheck) else None
    case SubmitChecklist(checklist, answers, _) =>
      if Open(s, checklist) && s.checklists[checklist].job == Some(id) && job.status == QualityCheck
      then Some(if |answers| > 0 && forall a :: a in answers ==> a != Fail then Ready else InProgress) else None
    case SendEstimate(sent, hasLines) =>
      if sent == id && hasLines && job.status !in {EstimateSent, Closed, NoShow} then Some(EstimateSent) else None
    case PortalDecision(decided) => if decided == id && job.status !in {Closed, NoShow} then Some(Approved) else None
    case NoShowTask => if job.status == Booked && job.arrivedAt.None? then Some(NoShow) else None
    case _ => None
  }

  /** The job after the call. */
  function After(s: Shop, stages: seq<W.Stage>, call: Call, id: Id): Job
    requires id in s.jobs
  {
    var r := Step(s, stages, call);
    if id in r.jobs then r.jobs[id] else s.jobs[id]
  }

  // ---- what a patch writes ----

  /** The stage of the workshop view that stands for a status and a stage of the board. */
  function ShownAs(stage: W.Stage): Option<WorkshopStage> {
    match stage.status
    case QualityCheck => Some(QualityChecking)
    case Ready => Some(ReadyHandover)
    case InProgress =>
      if stage.key in {"damage_assessment", "inspection"} then Some(Diagnosis)
      else if stage.key in {"estimate_sent", "waiting_approval", "insurance_approval"} then Some(CustomerApproval)
      else if stage.key in {"paint", "final_test"} then Some(FinalTest)
      else Some(WorkInProgress)
    case _ => None
  }

  /** What a patch makes of the workshop stage. */
  function StagePatched(job: Job, stages: seq<W.Stage>, dto: Patch): Option<WorkshopStage> {
    if dto.parts == Set(PartsReady) then Some(WaitingTechnician)
    else if Lane(stages, dto).Some? then ShownAs(Lane(stages, dto).value)
    else match dto.stage case Absent => job.stage case Null => None case Set(stage) => Some(stage)
  }

  /** What a patch makes of the card. */
  function KeyPatched(job: Job, stages: seq<W.Stage>, dto: Patch): Option<string> {
    if dto.parts == Set(PartsReady) then Some("in_progress")
    else match dto.stageKey case Absent => job.stageKey case Null => None case Set(key) => Some(key)
  }

  /** A patch writes four fields, and none of the times. */
  lemma {:induction false} PatchWrites(job: Job, stages: seq<W.Stage>, dto: Patch)
    requires Accepts(job, stages, dto)
    ensures Patched(job, stages, dto).Success?
    ensures Patched(job, stages, dto).value ==
      job.(status := Target(job, stages, dto), stage := StagePatched(job, stages, dto),
           stageKey := KeyPatched(job, stages, dto),
           parts := match dto.parts case Absent => job.parts case Null => None case Set(parts) => Some(parts))
  {
    PatchedStatus(job, stages, dto);
  }

  lemma {:induction false} PatchApplied(s: Shop, stages: seq<W.Stage>, patched: Id, dto: Patch, id: Id)
    requires id in s.jobs
    ensures var accepted := patched == id && !s.jobs[id].deleted && Accepts(s.jobs[id], stages, dto);
      After(s, stages, UpdateJob(patched, dto), id) ==
        if accepted then Patched(s.jobs[id], stages, dto).value else s.jobs[id]
  {
    PatchedStatus(s.jobs[id], stages, dto);
  }

  // ---- the moves between statuses ----

  /** The statuses from which a transition leads to `to`. */
  function LedFrom(to: Status): set<Status> {
    match to
    case Booked => {}
    case Checking => {Booked, EstimateSent}
    case EstimateSent => {Checking, Approved}
    case Approved => {Checking, EstimateSent}
    case InProgress => {Checking, Approved, WaitingParts, QualityCheck}
    case WaitingParts => {InProgress}
    case QualityCheck => {InProgress, Ready}
    case Ready => {InProgress, QualityCheck}
    case Closed => {Booked, Checking, EstimateSent, Approved, InProgress, WaitingParts, Ready}
    case NoShow => {Booked}
  }

  /** Every job can be closed directly, unless it is in quality check or has ended. */
  lemma {:induction false} MovesExact(from: Status, to: Status)
    ensures CanTransition(from, to) <==> from in LedFrom(to)
    ensures CanTransition(from, Closed) <==> from != QualityCheck && !Ended(from)
  {
  }

  // ---- which calls are accepted ----

  lemma {:induction false} SubmittedChecklist(s: Shop, stages: seq<W.Stage>, checklist: Id, answers: seq<Answer>,
                                              now: Time)
    ensures Submit(s, stages, checklist, answers, now).Success? <==> Open(s, checklist)
    ensures Open(s, checklist) ==>
      Submit(s, stages, checklist, answers, now).value.checklists ==
        s.checklists[checklist := s.checklists[checklist].(status := Submitted)]
  {
  }

  /** What a call needs: a job or checklist that it names, in a state that allows it. */
  predicate Allowed(s: Shop, stages: seq<W.Stage>, call: Call) {
    match call
    case CreateJob(id) => id !in s.jobs
    case ImportJob(id) => id !in s.jobs
    case ChangeStatus(id, to, _) => Live(s, id) && (s.jobs[id].status == to || CanTransition(s.jobs[id].status, to))
    case UpdateJob(id, dto) => Live(s, id) && Accepts(s.jobs[id], stages, dto)
    case UnassignTechnician(id) => Live(s, id)
    case ArchiveJob(id, _) => Live(s, id) && s.jobs[id].status == Closed
    case UnarchiveJob(id) => id in s.jobs && s.jobs[id].archivedAt.Some?
    case RemoveJob(id) => Live(s, id)
    case BeginInspection(id, _) => id in s.inspected || id in s.jobs
    case BeginChecklist(checklist, id) => Unchecked(s, id) ==> id in s.jobs && checklist !in s.checklists
    case SubmitChecklist(checklist, _, _) => Open(s, checklist)
    case ReopenChecklist(checklist) => checklist in s.checklists && !Open(s, checklist)
    case SendEstimate(id, hasLines) => id in s.jobs && hasLines
    case PortalDecision(id) => id in s.jobs
    case _ => true
  }

  /** A refused call names something that is not there, or is not in a state for it; a taken id breaks
      the primary key. */
  function Refusal(s: Shop, call: Call): Error {
    match call
    case CreateJob(_) => ConstraintFailed
    case ImportJob(_) => ConstraintFailed
    case BeginInspection(_, _) => ConstraintFailed
    case BeginChecklist(_, _) => ConstraintFailed
    case SubmitChecklist(checklist, _, _) => if checklist in s.checklists then BadRequest else NotFound
    case ReopenChecklist(checklist) => if checklist in s.checklists then BadRequest else NotFound
    case UnarchiveJob(id) => if id in s.jobs then BadRequest else NotFound
    case SendEstimate(id, _) => if id in s.jobs then BadRequest else NotFound
    case ChangeStatus(id, _, _) => if Live(s, id) then BadRequest else NotFound
    case UpdateJob(id, _) => if Live(s, id) then BadRequest else NotFound
    case ArchiveJob(id, _) => if Live(s, id) then BadRequest else NotFound
    case _ => NotFound
  }

  lemma {:induction false} AcceptedExact(s: Shop, stages: seq<W.Stage>, call: Call)
    ensures Perform(s, stages, call).Success? <==> Allowed(s, stages, call)
    ensures Perform(s, stages, call).Failure? ==> Perform(s, stages, call).error == Refusal(s, call)
  {
    match call
    case UpdateJob(id, dto) =>
      if Live(s, id) {
        PatchedStatus(s.jobs[id], stages, dto);
      }
    case SubmitChecklist(checklist, answers, now) => SubmittedChecklist(s, stages, checklist, answers, now);
    case _ =>
  }

  // ---- one field at a time ----

  /** A job is booked when it is created, without parts and without any of its times. */
  function NewJob(stage: Option<WorkshopStage>, key: Option<string>): Job {
    Job(Booked, stage, key, Some(NoParts), None, None, None, None, false)
  }

  /** No job disappears, and only the two kinds of creation add one: on the board when the jobs service
      creates it, and in the workshop queue when it is imported. */
  lemma {:induction false} JobsAdded(s: Shop, stages: seq<W.Stage>, call: Call)
    ensures var r := Step(s, stages, call);
      match call
      case CreateJob(id) => r.jobs == if id in s.jobs then s.jobs else s.jobs[id := NewJob(None, Some("booked"))]
      case ImportJob(id) =>
        r.jobs == if id in s.jobs then s.jobs else s.jobs[id := NewJob(Some(WaitingTechnician), None)]
      case _ => r.jobs.Keys == s.jobs.Keys
  {
  }

  lemma {:induction false} StatusWritten(s: Shop, stages: seq<W.Stage>, call: Call, id: Id)
    requires id in s.jobs
    ensures var written := Written(s, stages, call, id);
      After(s, stages, call, id).status == if written.Some? then written.value else s.jobs[id].status
  {
    if call.UpdateJob? {
      PatchApplied(s, stages, call.id, call.dto, id);
      PatchedStatus(s.jobs[id], stages, call.dto);
    }
  }

  lemma {:induction false} ArrivalKept(s: Shop, stages: seq<W.Stage>, call: Call, id: Id)
    requires id in s.jobs && !call.ChangeStatus? && !call.BeginInspection?
    ensures After(s, stages, call, id).arrivedAt == s.jobs[id].arrivedAt
  {
    if call.UpdateJob? {
      PatchApplied(s, stages, call.id, call.dto, id);
    }
  }

  /** An arrival once set stays; it is set by the first move to `checking`, to the time of the call. */
  lemma {:induction false} ArrivalWritten(s: Shop, stages: seq<W.Stage>, call: Call, id: Id)
    requires id in s.jobs
    ensures After(s, stages, call, id).arrivedAt ==
      if s.jobs[id].arrivedAt.Some? then s.jobs[id].arrivedAt
      else if (call.ChangeStatus? || call.BeginInspection?) && Written(s, stages, call, id) == Some(Checking)
      then Some(call.now)
      else None
  {
    if !call.ChangeStatus? && !call.BeginInspection? {
      ArrivalKept(s, stages, call, id);
    }
  }

  /** Becoming ready by a transition or a passed checklist completes the job at that time; a transition
      back, or a checklist that fails, takes the time away. */
  lemma {:induction false} CompletionWritten(s: Shop, stages: seq<W.Stage>, call: Call, id: Id)
    requires id in s.jobs
    ensures After(s, stages, call, id).completedAt ==
      (var written, before := Written(s, stages, call, id), s.jobs[id];
       if written.None? || !(call.ChangeStatus? || call.SubmitChecklist?) then before.completedAt
       else if written == Some(Ready) then Some(call.now)
       else if call.SubmitChecklist? || (before.status == Ready && written != Some(Closed)) then None
       else before.completedAt)
  {
  }

  /** Closing a job by a transition invoices it at that time, and nothing else writes the invoice. */
  lemma {:induction false} InvoiceWritten(s: Shop, stages: seq<W.Stage>, call: Call, id: Id)
    requires id in s.jobs
    ensures After(s, stages, call, id).invoicedAt ==
      if call.ChangeStatus? && Written(s, stages, call, id) == Some(Closed) then Some(call.now)
      else s.jobs[id].invoicedAt
  {
  }

  lemma {:induction false} ArchiveKept(s: Shop, stages: seq<W.Stage>, call: Call, id: Id)
    requires id in s.jobs && !call.ArchiveJob? && !call.ArchiveTask? && !call.UnarchiveJob?
    ensures After(s, stages, call, id).archivedAt == s.jobs[id].archivedAt
  {
    if call.UpdateJob? {
      PatchApplied(s, stages, call.id, call.dto, id);
    }
  }

  lemma {:induction false} ArchiveWritten(s: Shop, stages: seq<W.Stage>, call: Call, id: Id)
    requires id in s.jobs
    ensures After(s, stages, call, id).archivedAt ==
      (var before := s.jobs[id];
       if call.ArchiveJob? && call.id == id && !before.deleted && before.status == Closed then Some(call.now)
       else if call.ArchiveTask? && id in call.due && before.status == Closed && before.archivedAt.None? then
         Some(call.now)
       else if call == UnarchiveJob(id) then None
       else before.archivedAt)
  {
    if !call.ArchiveJob? && !call.ArchiveTask? && !call.UnarchiveJob? {
      ArchiveKept(s, stages, call, id);
    }
  }

  lemma {:induction false} DeletionWritten(s: Shop, stages: seq<W.Stage>, call: Call, id: Id)
    requires id in s.jobs
    ensures After(s, stages, call, id).deleted <==>
      s.jobs[id].deleted || call == RemoveJob(id) || (call.RemoveBooked? && s.jobs[id].status == Booked)
  {
  }

  /** A job in progress or in quality check waits in the queue or is checked; elsewhere it leaves the
      workshop view, unless a patch says otherwise. */
  lemma {:induction false} StageWritten(s: Shop, stages: seq<W.Stage>, call: Call, id: Id)
    requires id in s.jobs
    ensures After(s, stages, call, id).stage ==
      (var written, before := Written(s, stages, call, id), s.jobs[id];
       if written.Some? then
         if call.UpdateJob? then StagePatched(before, stages, call.dto)
         else if written == Some(InProgress) then Some(WaitingTechnician)
         else if written == Some(QualityCheck) then Some(QualityChecking)
         else if written == Some(Ready) then Some(ReadyHandover)
         else None
       else if call == UnassignTechnician(id) && !before.deleted && before.status == InProgress
       then Some(WaitingTechnician)
       else before.stage)
  {
    if call.UpdateJob? {
      PatchApplied(s, stages, call.id, call.dto, id);
      if Accepts(s.jobs[id], stages, call.dto) {
        PatchWrites(s.jobs[id], stages, call.dto);
      }
    }
  }

  /** Waiting for parts orders them if nobody has, and going back to work uses parts that are ready. */
  lemma {:induction false} PartsWritten(s: Shop, stages: seq<W.Stage>, call: Call, id: Id)
    requires id in s.jobs
    ensures After(s, stages, call, id).parts ==
      (var written, before := Written(s, stages, call, id), s.jobs[id];
       if call.ChangeStatus? && written == Some(WaitingParts) && before.parts in {None, Some(NoParts), Some(PartsReady)}
       then Some(OrderParts)
       else if call.ChangeStatus? && written == Some(InProgress) && before.parts == Some(PartsReady) then Some(NoParts)
       else if call.UpdateJob? && written.Some? && call.dto.parts.Set? then Some(call.dto.parts.value)
       else if call.UpdateJob? && written.Some? && call.dto.parts.Null? then None
       else before.parts)
  {
    if call.UpdateJob? {
      PatchedStatus(s.jobs[id], stages, call.dto);
    }
  }

  predicate KeyFollows(s: Shop, stages: seq<W.Stage>, call: Call, id: Id)
    requires id in s.jobs
  {
    var written := Written(s, stages, call, id);
    After(s, stages, call, id).stageKey ==
      if written.None? || call.NoShowTask? then s.jobs[id].stageKey
      else if call.UpdateJob? then KeyPatched(s.jobs[id], stages, call.dto)
      else W.DefaultKey(stages, written.value)
  }

  lemma {:induction false} CheckKeyWritten(s: Shop, stages: seq<W.Stage>, call: Call, id: Id)
    requires id in s.jobs && (call.BeginInspection? || call.BeginChecklist?)
    ensures KeyFollows(s, stages, call, id)
  {
    WorkflowProofs.CopiesAgree(stages, if call.BeginInspection? then Checking else QualityCheck);
  }

  lemma {:induction false} SubmitKeyWritten(s: Shop, stages: seq<W.Stage>, call: Call, id: Id)
    requires id in s.jobs && call.SubmitChecklist?
    ensures KeyFollows(s, stages, call, id)
  {
    WorkflowProofs.CopiesAgree(stages, Ready);
    WorkflowProofs.CopiesAgree(stages, InProgress);
  }

  /** A card is put where the patch says, or on the default stage of the status that is written; only
      the no-show task leaves it where it was. */
  lemma {:induction false} KeyWritten(s: Shop, stages: seq<W.Stage>, call: Call, id: Id)
    requires id in s.jobs
    ensures KeyFollows(s, stages, call, id)
  {
    match call
    case UpdateJob(patched, dto) =>
      PatchApplied(s, stages, patched, dto, id);
      if Accepts(s.jobs[id], stages, dto) {
        PatchWrites(s.jobs[id], stages, dto);
      }
    case BeginInspection(_, _) => CheckKeyWritten(s, stages, call, id);
    case BeginChecklist(_, _) => CheckKeyWritten(s, stages, call, id);
    case SubmitChecklist(_, _, _) => SubmitKeyWritten(s, stages, call, id);
    case _ =>
  }

  /** The job that a call is about. */
  function Subject(s: Shop, call: Call): Option<Id> {
    match call
    case ChangeStatus(id, _, _) => Some(id)
    case UpdateJob(id, _) => Some(id)
    case BeginInspection(id, _) => Some(id)
    case BeginChecklist(_, id) => Some(id)
    case SubmitChecklist(checklist, _, _) => if checklist in s.checklists then s.checklists[checklist].job else None
    case SendEstimate(id, _) => Some(id)
    case PortalDecision(id) => Some(id)
    case _ => None
  }

  /** One row for each created job and each recorded move to another status, and no other. */
  lemma {:induction false} HistoryWritten(s: Shop, stages: seq<W.Stage>, call: Call)
    ensures var id, h := Subject(s, call), Step(s, stages, call).history;
      if call.CreateJob? && call.id !in s.jobs then h == s.history + [Change(call.id, None, Booked)]
      else if id.Some? && id.value in s.jobs
              && Written(s, stages, call, id.value) !in {None, Some(s.jobs[id.value].status)}
      then h == s.history + [Change(id.value, Some(s.jobs[id.value].status), Written(s, stages, call, id.value).value)]
      else h == s.history
  {
    if call.UpdateJob? && call.id in s.jobs {
      PatchedStatus(s.jobs[call.id], stages, call.dto);
    }
  }

  /** A job has at most one inspection. */
  lemma {:induction false} InspectionsWritten(s: Shop, stages: seq<W.Stage>, call: Call)
    ensures Step(s, stages, call).inspected ==
      if call.BeginInspection? && call.id in s.jobs then s.inspected + {call.id} else s.inspected
  {
  }

  /** A job has at most one checklist, which is submitted once and may be reopened. */
  lemma {:induction false} ChecklistsWritten(s: Shop, stages: seq<W.Stage>, call: Call)
    ensures Step(s, stages, call).checklists ==
      match call
      case BeginChecklist(checklist, id) =>
        if Unchecked(s, id) && id in s.jobs && checklist !in s.checklists
        then s.checklists[checklist := Checklist(Some(id), Started)] else s.checklists
      case SubmitChecklist(checklist, _, _) =>
        if Open(s, checklist) then s.checklists[checklist := s.checklists[checklist].(status := Submitted)]
        else s.checklists
      case ReopenChecklist(checklist) =>
        if checklist in s.checklists && !Open(s, checklist)
        then s.checklists[checklist := s.checklists[checklist].(status := Started)] else s.checklists
      case _ => s.checklists
  {
    match call
    case SubmitChecklist(checklist, answers, now) => SubmittedChecklist(s, stages, checklist, answers, now);
    case _ =>
  }

  // ---- the arrival over runs ----

  /** The time of the first move to `checking` in a run, by a transition or an inspection. */
  function FirstChecking(w: World, events: seq<Event>, id: Id): Option<Time>
    requires id in w.shop.jobs
    decreases events
  {
    if events == [] then None
    else if events[0].Do? && (events[0].call.ChangeStatus? || events[0].call.BeginInspection?)
            && Written(w.shop, w.board, events[0].call, id) == Some(Checking)
    then Some(events[0].call.now)
    else if id in Next(w, events[0]).shop.jobs then FirstChecking(Next(w, events[0]), events[1..], id)
    else None
  }

  /** Over every run the arrival of a job is the one it had, or else the time of its first move to
      `checking`; no later call changes it. */
  lemma {:induction false} ArrivalOverRuns(w: World, events: seq<Event>, id: Id)
    requires id in w.shop.jobs
    ensures id in Run(w, events).shop.jobs
    ensures Run(w, events).shop.jobs[id].arrivedAt ==
      if w.shop.jobs[id].arrivedAt.Some? then w.shop.jobs[id].arrivedAt else FirstChecking(w, events, id)
    decreases events
  {
    if events == [] {
    } else {
      if events[0].Do? {
        JobsAdded(w.shop, w.board, events[0].call);
        ArrivalWritten(w.shop, w.board, events[0].call, id);
      }
      ArrivalOverRuns(Next(w, events[0]), events[1..], id);
    }
  }
}
