/** The services that move jobs, as they run: they build up the fields to write step by step and
    then write the job and its history row. Every method is proved to be the operation of `Lifecycle`. */
module LifecycleServices {
  import opened Wrappers
  import opened JobStatus
  import W = Workflow
  import opened L = Lifecycle

  /** The call either committed the described state or threw and left everything as it was. */
  ghost predicate Commits(before: Shop, outcome: Outcome, after: Shop, thrown: Option<Error>) {
    match outcome
    case Success(next) => after == next && thrown == None
    case Failure(error) => after == before && thrown == Some(error)
  }

  class Services {
    var stages: seq<W.Stage>
    var jobs: map<Id, Job>
    var history: seq<Change>
    var inspected: set<Id>
    var checklists: map<Id, Checklist>

    function State(): Shop
      reads this
    {
      Shop(jobs, history, inspected, checklists)
    }

    constructor (stages: seq<W.Stage>)
      ensures State() == EMPTY && this.stages == stages
    {
      this.stages := stages;
      jobs, history, inspected, checklists := map[], [], {}, map[];
    }

    /** The stages in force are those that the workflow service loads. */
    method LoadStages(workflow: W.Service)
      modifies this`stages
      ensures stages == W.Stages(workflow.setting)
    {
      stages := workflow.GetStages();
    }

    method CreateJob(id: Id) returns (thrown: Option<Error>)
      modifies this`jobs, this`history, this`inspected, this`checklists
      ensures Commits(old(State()), Create(old(State()), id), State(), thrown)
    {
      if id in jobs { return Some(ConstraintFailed); }
      jobs := jobs[id := Job(Booked, None, Some("booked"), Some(NoParts), None, None, None, None, false)];
      history := history + [Change(id, None, Booked)];
      return None;
    }

    /** `jobs.update` and `job_status_history.create` in one transaction. */
    method WriteMove(id: Id, from: Status, data: Job)
      requires id in jobs && from == jobs[id].status
      modifies this`jobs, this`history
      ensures State() == Move(old(State()), id, data)
    {
      jobs := jobs[id := data];
      history := history + [Change(id, Some(from), data.status)];
    }

    method ChangeStatus(id: Id, to: Status, now: Time) returns (thrown: Option<Error>)
      modifies this`jobs, this`history, this`inspected, this`checklists
      ensures Commits(old(State()), Transition(old(State()), stages, id, to, now), State(), thrown)
    {
      if id !in jobs || jobs[id].deleted { return Some(NotFound); }
      var job := jobs[id];
      if job.status == to { return None; }
      if !CanTransition(job.status, to) { return Some(BadRequest); }
      var stage := StageForTransition(to);
      var data := job.(status := to, stageKey := W.DefaultKey(stages, to), stage := stage);
      if to == Checking && job.arrivedAt.None? { data := data.(arrivedAt := Some(now)); }
      if to == WaitingParts {
        if job.parts.None? || job.parts.value == NoParts || job.parts.value == PartsReady {
          data := data.(parts := Some(OrderParts));
        }
      }
      if to == InProgress && job.parts == Some(PartsReady) { data := data.(parts := Some(NoParts)); }
      if to == Ready { data := data.(completedAt := Some(now)); }
      if to == Closed { data := data.(invoicedAt := Some(now)); }
      if to == Booked { data := data.(arrivedAt := None); }
      if job.status == Closed && to != Closed { data := data.(invoicedAt := None, archivedAt := None); }
      if job.status == Ready && to != Ready && to != Closed { data := data.(completedAt := None); }
      WriteMove(id, job.status, data);
      return None;
    }

    method StageForTransition(to: Status) returns (stage: Option<WorkshopStage>)
      ensures stage == StageOnEntry(to)
    {
      stage := None;
      if to == InProgress { stage := Some(WaitingTechnician); }
      if to == QualityCheck { stage := Some(QualityChecking); }
      if to == Ready { stage := Some(ReadyHandover); }
    }

    method UpdateJob(id: Id, dto: Patch) returns (thrown: Option<Error>)
      modifies this`jobs, this`history, this`inspected, this`checklists
      ensures Commits(old(State()), Update(old(State()), stages, id, dto), State(), thrown)
    {
      if id !in jobs || jobs[id].deleted { return Some(NotFound); }
      var job := jobs[id];
      if dto.status.Some? && dto.status.value != job.status {
        if !CanTransition(job.status, dto.status.value) { return Some(BadRequest); }
      }
      var status := dto.status;
      var data := job.(stage := Apply(dto.stage, job.stage), stageKey := Apply(dto.stageKey, job.stageKey),
                       parts := Apply(dto.parts, job.parts));
      if dto.stageKey.Set? && dto.stageKey.value != "" {
        var stage := W.ResolveStage(stages, dto.stageKey.value);
        if stage.Failure? { return Some(BadRequest); }
        data := data.(stageKey := Some(stage.value.key), stage := LegacyStage(stage.value.status, stage.value.key));
        status := Some(stage.value.status);
      }
      if dto.stage == Set(QualityChecking) {
        status := Some(QualityCheck);
      } else if dto.stage == Set(ReadyHandover) {
        status := Some(Ready);
      } else if dto.stage.Set? {
        status := Some(InProgress);
      }
      if dto.parts == Set(PartsReady) {
        data := data.(stage := Some(WaitingTechnician), stageKey := Some("in_progress"));
      }
      if status.Some? && status.value != job.status {
        WriteMove(id, job.status, data.(status := status.value));
      } else {
        jobs := jobs[id := data];
      }
      return None;
    }

    method UnassignTechnician(id: Id) returns (thrown: Option<Error>)
      modifies this`jobs, this`history, this`inspected, this`checklists
      ensures Commits(old(State()), Unassign(old(State()), id), State(), thrown)
    {
      if id !in jobs || jobs[id].deleted { return Some(NotFound); }
      var stage := if jobs[id].status == InProgress then Some(WaitingTechnician) else jobs[id].stage;
      assert jobs[id := jobs[id].(stage := jobs[id].stage)] == jobs;
      jobs := jobs[id := jobs[id].(stage := stage)];
      return None;
    }

    method ArchiveJob(id: Id, now: Time) returns (thrown: Option<Error>)
      modifies this`jobs, this`history, this`inspected, this`checklists
      ensures Commits(old(State()), Archive(old(State()), id, now), State(), thrown)
      ensures thrown.None? <==> id in old(jobs) && !old(jobs)[id].deleted && old(jobs)[id].status == Closed
      ensures thrown.None? ==> jobs == old(jobs)[id := old(jobs)[id].(archivedAt := Some(now))]
      ensures history == old(history)
    {
      if id !in jobs || jobs[id].deleted { return Some(NotFound); }
      if jobs[id].status != Closed { return Some(BadRequest); }
      jobs := jobs[id := jobs[id].(archivedAt := Some(now))];
      return None;
    }

    method UnarchiveJob(id: Id) returns (thrown: Option<Error>)
      modifies this`jobs, this`history, this`inspected, this`checklists
      ensures Commits(old(State()), Unarchive(old(State()), id), State(), thrown)
      ensures thrown.None? <==> id in old(jobs) && old(jobs)[id].archivedAt.Some?
      ensures thrown.None? ==> jobs == old(jobs)[id := old(jobs)[id].(archivedAt := None)]
      ensures history == old(history)
    {
      if id !in jobs { return Some(NotFound); }
      if jobs[id].archivedAt.None? { return Some(BadRequest); }
      jobs := jobs[id := jobs[id].(archivedAt := None)];
      return None;
    }

    method CreateInspection(id: Id, now: Time) returns (thrown: Option<Error>)
      modifies this`jobs, this`history, this`inspected, this`checklists
      ensures Commits(old(State()), StartInspection(old(State()), stages, id, now), State(), thrown)
    {
      if id in inspected { return None; }
      if id !in jobs { return Some(ConstraintFailed); }
      var job := jobs[id];
      if job.status == Booked {
        var arrivedAt := if job.arrivedAt.Some? then job.arrivedAt else Some(now);
        WriteMove(id, Booked, job.(status := Checking, stageKey := W.InspectionDefaultKey(stages, Checking),
                                   stage := None, arrivedAt := arrivedAt));
      }
      inspected := inspected + {id};
      return None;
    }

    method CreateChecklist(checklist: Id, id: Id) returns (thrown: Option<Error>)
      modifies this`jobs, this`history, this`inspected, this`checklists
      ensures Commits(old(State()), StartChecklist(old(State()), stages, checklist, id), State(), thrown)
    {
      if exists c :: c in checklists && checklists[c].job == Some(id) { return None; }
      if id !in jobs || checklist in checklists { return Some(ConstraintFailed); }
      var job := jobs[id];
      if job.status == InProgress || job.status == WaitingParts {
        WriteMove(id, job.status, job.(status := QualityCheck, stageKey := W.QcDefaultKey(stages, QualityCheck),
                                       stage := Some(QualityChecking)));
      }
      checklists := checklists[checklist := Checklist(Some(id), Started)];
      return None;
    }

    method SubmitChecklist(checklist: Id, answers: seq<Answer>, now: Time) returns (thrown: Option<Error>)
      modifies this`jobs, this`history, this`inspected, this`checklists
      ensures Commits(old(State()), Submit(old(State()), stages, checklist, answers, now), State(), thrown)
    {
      if checklist !in checklists { return Some(NotFound); }
      var c := checklists[checklist];
      if c.status == Submitted { return Some(BadRequest); }
      if c.status == Signed { return Some(BadRequest); }
      var overallResult := NotApplicable;
      if |answers| > 0 {
        overallResult := if exists i :: 0 <= i < |answers| && answers[i] == Fail then Fail else Pass;
      }
      checklists := checklists[checklist := c.(status := Submitted)];
      if c.job.Some? && c.job.value in jobs && jobs[c.job.value].status == QualityCheck {
        var job := jobs[c.job.value];
        var newStatus := if overallResult == Pass then Ready else InProgress;
        var data := job.(status := newStatus, stageKey := W.QcDefaultKey(stages, newStatus),
                         stage := Some(if newStatus == Ready then ReadyHandover else WaitingTechnician));
        if newStatus == Ready { data := data.(completedAt := Some(now)); }
        if newStatus == InProgress { data := data.(completedAt := None); }
        WriteMove(c.job.value, QualityCheck, data);
      }
      return None;
    }

    method MoveJobToEstimateSent(id: Id, hasLines: bool) returns (thrown: Option<Error>)
      modifies this`jobs, this`history, this`inspected, this`checklists
      ensures Commits(old(State()), RequestApproval(old(State()), stages, id, hasLines), State(), thrown)
    {
      if id !in jobs { return Some(NotFound); }
      if !hasLines { return Some(BadRequest); }
      var job := jobs[id];
      var shouldMove := job.status != EstimateSent && job.status != Closed && job.status != NoShow;
      if shouldMove {
        WriteMove(id, job.status,
                  job.(status := EstimateSent, stageKey := W.DefaultKey(stages, EstimateSent), stage := None));
      }
      return None;
    }

    method MoveJobToApproved(id: Id) returns (thrown: Option<Error>)
      modifies this`jobs, this`history, this`inspected, this`checklists
      ensures Commits(old(State()), CustomerDecides(old(State()), stages, id), State(), thrown)
    {
      if id !in jobs { return Some(NotFound); }
      var job := jobs[id];
      if job.status != Closed && job.status != NoShow {
        var shouldRecordHistory := job.status != Approved;
        jobs := jobs[id := job.(status := Approved, stageKey := W.DefaultKey(stages, Approved), stage := None)];
        if shouldRecordHistory {
          history := history + [Change(id, Some(job.status), Approved)];
        }
      }
      return None;
    }

    /** `updateMany` over the booked jobs that have not arrived. */
    method MarkBookedAsNoShow()
      modifies this`jobs, this`history, this`inspected, this`checklists
      ensures State() == SweepNoShows(old(State()))
      ensures jobs.Keys == old(jobs).Keys && history == old(history)
      ensures forall id :: id in jobs ==>
        jobs[id] == if old(jobs)[id].status == Booked && old(jobs)[id].arrivedAt.None?
                    then old(jobs)[id].(status := NoShow, stage := None) else old(jobs)[id]
    {
      jobs := map id | id in jobs ::
        if jobs[id].status == Booked && jobs[id].arrivedAt.None? then jobs[id].(status := NoShow, stage := None)
        else jobs[id];
    }
  }
}
