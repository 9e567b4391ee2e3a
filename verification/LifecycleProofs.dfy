/** When the status, the timestamps and the workshop stage of every job agree, and when the history
    of a job replays to its status. */
module LifecycleProofs {
  import opened Wrappers
  import opened Sequences
  import opened JobStatus
  import W = Workflow
  import WorkflowProofs
  import opened Lifecycle

  // ---- the invariant ----

  /** The two stages that stand for a status of their own. */
  predicate StageFits(stage: Option<WorkshopStage>, status: Status) {
    && (stage == Some(QualityChecking) <==> status == QualityCheck)
    && (stage == Some(ReadyHandover) <==> status == Ready)
  }

  predicate NotArrived(status: Status) { status == Booked || status == NoShow }

  predicate Consistent(job: Job) {
    && (job.status == Closed <==> job.invoicedAt.Some?)
    && (job.status == Ready ==> job.completedAt.Some?)
    && (job.completedAt.Some? ==> job.status == Ready || job.status == Closed)
    && (job.archivedAt.Some? ==> job.status == Closed)
    && (NotArrived(job.status) ==> job.arrivedAt.None?)
    && (!NotArrived(job.status) && job.status != Closed ==> job.arrivedAt.Some?)
    && StageFits(job.stage, job.status)
  }

  ghost predicate Inv(s: Shop) {
    forall id :: id in s.jobs ==> Consistent(s.jobs[id])
  }

  datatype Phase = Expected | InWork | Finished | Billed

  function PhaseOf(s: Status): Phase {
    match s
    case Booked => Expected
    case NoShow => Expected
    case Ready => Finished
    case Closed => Billed
    case _ => InWork
  }


  // ---- what a patch asks for ----

  /** The stage of the board that a patch names, when there is such an active stage. */
  function Lane(stages: seq<W.Stage>, dto: Patch): Option<W.Stage> {
    if dto.stageKey.Set? && dto.stageKey.value != "" && W.ResolveStage(stages, dto.stageKey.value).Success?
    then Some(W.ResolveStage(stages, dto.stageKey.value).value) else None
  }

  /** A status that is sent must be allowed, and a stage that is named must be on the board. */
  predicate Accepts(job: Job, stages: seq<W.Stage>, dto: Patch) {
    && (dto.status.Some? ==> dto.status.value == job.status || CanTransition(job.status, dto.status.value))
    && (dto.stageKey.Set? && dto.stageKey.value != "" ==> Lane(stages, dto).Some?)
  }

  /** The status that a patch asks for: a workshop stage counts before a stage of the board, and that
      before the status sent. */
  function Target(job: Job, stages: seq<W.Stage>, dto: Patch): Status {
    if dto.stage.Set? then StatusOfStage(dto.stage.value)
    else if Lane(stages, dto).Some? then Lane(stages, dto).value.status
    else if dto.status.Some? then dto.status.value
    else job.status
  }

  predicate OwnStage(status: Status) { status == QualityCheck || status == Ready }

  /** The workshop stage comes from the status asked for; where it comes from elsewhere, neither side
      may be one of the two statuses that have a stage of their own. */
  predicate StageInStep(job: Job, stages: seq<W.Stage>, dto: Patch) {
    var to, lane := Target(job, stages, dto), Lane(stages, dto);
    if dto.parts == Set(PartsReady) then !OwnStage(to)
    else if lane.Some? then lane.value.status == to || (!OwnStage(lane.value.status) && !OwnStage(to))
    else if dto.stage.Null? then !OwnStage(to)
    else dto.stage.Set? || to == job.status || (!OwnStage(to) && !OwnStage(job.status))
  }

  /** A patch never writes a timestamp, so the status it asks for must be of the job's phase. */
  predicate PatchInStep(job: Job, stages: seq<W.Stage>, dto: Patch) {
    PhaseOf(Target(job, stages, dto)) == PhaseOf(job.status) && StageInStep(job, stages, dto)
  }

  /** The guard under which a call keeps the invariant: only patches and the portal have one. */
  predicate Safe(s: Shop, stages: seq<W.Stage>, call: Call) {
    match call
    case UpdateJob(id, dto) =>
      Live(s, id) && Accepts(s.jobs[id], stages, dto) ==> PatchInStep(s.jobs[id], stages, dto)
    case SendEstimate(id, hasLines) =>
      id in s.jobs && hasLines ==> s.jobs[id].status != Booked && s.jobs[id].status != Ready
    case PortalDecision(id) => id in s.jobs ==> s.jobs[id].status != Booked && s.jobs[id].status != Ready
    case _ => true
  }

  // ---- which calls keep it ----

  lemma {:induction false} WriteKeeps(s: Shop, r: Shop, id: Id, job: Job)
    requires Inv(s) && r.jobs == s.jobs[id := job]
    ensures Inv(r) <==> Consistent(job)
  {
    if Inv(r) {
      assert r.jobs[id] == job;
    }
  }

  lemma {:induction false} EnteredConsistent(job: Job, to: Status, key: Option<string>, now: Time)
    requires Consistent(job) && CanTransition(job.status, to)
    ensures Consistent(Entered(job, to, key, now))
  {
  }

  lemma {:induction false} PatchedStatus(job: Job, stages: seq<W.Stage>, dto: Patch)
    ensures Patched(job, stages, dto).Success? <==> Accepts(job, stages, dto)
    ensures Accepts(job, stages, dto) ==> Patched(job, stages, dto).value.status == Target(job, stages, dto)
  {
  }

  /** The workshop stage a patch leaves fits the status it asks for exactly when what it was taken
      from does. */
  lemma {:induction false} PatchedStage(job: Job, stages: seq<W.Stage>, dto: Patch)
    requires StageFits(job.stage, job.status) && Accepts(job, stages, dto)
    ensures StageFits(Patched(job, stages, dto).value.stage, Target(job, stages, dto)) <==>
      StageInStep(job, stages, dto)
  {
    PatchedStatus(job, stages, dto);
    var lane := Lane(stages, dto);
    if lane.Some? {
      assert StageFits(LegacyStage(lane.value.status, lane.value.key), lane.value.status);
    }
  }

  /** An accepted patch keeps a consistent job consistent exactly when it is in step. */
  lemma {:induction false} PatchedConsistent(job: Job, stages: seq<W.Stage>, dto: Patch)
    requires Consistent(job) && Accepts(job, stages, dto)
    ensures Consistent(Patched(job, stages, dto).value) <==> PatchInStep(job, stages, dto)
  {
    PatchedStatus(job, stages, dto);
    PatchedStage(job, stages, dto);
  }

  /** A portal move keeps a job consistent unless the car has not arrived or is already finished. */
  lemma {:induction false} PortalConsistent(job: Job, stages: seq<W.Stage>, to: Status)
    requires Consistent(job) && (to == EstimateSent || to == Approved)
    requires job.status != Closed && job.status != NoShow
    ensures Consistent(MovedByPortal(job, stages, to)) <==> job.status != Booked && job.status != Ready
  {
  }

  lemma {:induction false} TransitionKeeps(s: Shop, stages: seq<W.Stage>, id: Id, to: Status, now: Time)
    requires Inv(s) && Transition(s, stages, id, to, now).Success?
    ensures Inv(Transition(s, stages, id, to, now).value)
  {
    if s.jobs[id].status != to {
      var job := Entered(s.jobs[id], to, W.DefaultKey(stages, to), now);
      EnteredConsistent(s.jobs[id], to, W.DefaultKey(stages, to), now);
      WriteKeeps(s, Transition(s, stages, id, to, now).value, id, job);
    }
  }

  lemma {:induction false} UpdateExact(s: Shop, stages: seq<W.Stage>, id: Id, dto: Patch)
    requires Inv(s) && Update(s, stages, id, dto).Success?
    ensures Inv(Update(s, stages, id, dto).value) <==> PatchInStep(s.jobs[id], stages, dto)
  {
    PatchedStatus(s.jobs[id], stages, dto);
    PatchedConsistent(s.jobs[id], stages, dto);
    WriteKeeps(s, Update(s, stages, id, dto).value, id, Patched(s.jobs[id], stages, dto).value);
  }

  lemma {:induction false} PortalExact(s: Shop, stages: seq<W.Stage>, id: Id)
    requires Inv(s) && id in s.jobs
    ensures Inv(RequestApproval(s, stages, id, true).value) <==>
      s.jobs[id].status != Booked && s.jobs[id].status != Ready
    ensures Inv(CustomerDecides(s, stages, id).value) <==> s.jobs[id].status != Booked && s.jobs[id].status != Ready
  {
    var job := s.jobs[id];
    if job.status != Closed && job.status != NoShow {
      PortalConsistent(job, stages, Approved);
      WriteKeeps(s, CustomerDecides(s, stages, id).value, id, MovedByPortal(job, stages, Approved));
      if job.status != EstimateSent {
        PortalConsistent(job, stages, EstimateSent);
        WriteKeeps(s, RequestApproval(s, stages, id, true).value, id, MovedByPortal(job, stages, EstimateSent));
      }
    }
  }

  lemma {:induction false} InspectionKeeps(s: Shop, stages: seq<W.Stage>, id: Id, now: Time)
    requires Inv(s) && StartInspection(s, stages, id, now).Success?
    ensures Inv(StartInspection(s, stages, id, now).value)
  {
  }

  lemma {:induction false} ChecklistKeeps(s: Shop, stages: seq<W.Stage>, checklist: Id, id: Id)
    requires Inv(s) && StartChecklist(s, stages, checklist, id).Success?
    ensures Inv(StartChecklist(s, stages, checklist, id).value)
  {
  }

  lemma {:induction false} SubmitKeeps(s: Shop, stages: seq<W.Stage>, checklist: Id, answers: seq<Answer>, now: Time)
    requires Inv(s) && Submit(s, stages, checklist, answers, now).Success?
    ensures Inv(Submit(s, stages, checklist, answers, now).value)
  {
  }

  /** The calls that write one field, or many jobs at once. */
  lemma {:induction false} DeskKeeps(s: Shop, stages: seq<W.Stage>, call: Call)
    requires call.UnassignTechnician? || call.ArchiveJob? || call.UnarchiveJob? || call.RemoveJob? || call.NoShowTask?
      || call.ArchiveTask? || call.RemoveBooked? || call.ReopenChecklist?
    requires Inv(s) && Perform(s, stages, call).Success?
    ensures Inv(Perform(s, stages, call).value)
  {
    var r := Perform(s, stages, call).value;
    forall id | id in r.jobs ensures Consistent(r.jobs[id]) {
      assert Consistent(s.jobs[id]);
    }
  }

  /** Every call keeps the invariant exactly when its guard holds. */
  lemma {:induction false} StepExact(s: Shop, stages: seq<W.Stage>, call: Call)
    requires Inv(s)
    ensures Inv(Step(s, stages, call)) <==> Safe(s, stages, call)
  {
    if call.UpdateJob? && Live(s, call.id) {
      PatchedStatus(s.jobs[call.id], stages, call.dto);
    }
    if Perform(s, stages, call).Success? {
      match call
      case CreateJob(id) => WriteKeeps(s, Create(s, id).value, id, NEW_JOB);
      case ImportJob(id) => WriteKeeps(s, CreateImported(s, id).value, id, IMPORTED_JOB);
      case ChangeStatus(id, to, now) => TransitionKeeps(s, stages, id, to, now);
      case UpdateJob(id, dto) => UpdateExact(s, stages, id, dto);
      case BeginInspection(id, now) => InspectionKeeps(s, stages, id, now);
      case BeginChecklist(checklist, id) => ChecklistKeeps(s, stages, checklist, id);
      case SubmitChecklist(checklist, answers, now) => SubmitKeeps(s, stages, checklist, answers, now);
      case SendEstimate(id, _) => PortalExact(s, stages, id);
      case PortalDecision(id) => PortalExact(s, stages, id);
      case _ => DeskKeeps(s, stages, call);
    }
  }

  predicate Guarded(call: Call) { call.UpdateJob? || call.SendEstimate? || call.PortalDecision? }

  // ---- the ends ----

  predicate Ended(status: Status) { status == Closed || status == NoShow }

  /** An accepted patch that asks for another status than the job has. */
  predicate Leaves(s: Shop, stages: seq<W.Stage>, call: Call, id: Id) {
    && call.UpdateJob? && call.id == id && Live(s, id)
    && Accepts(s.jobs[id], stages, call.dto) && Target(s.jobs[id], stages, call.dto) != s.jobs[id].status
  }

  lemma {:induction false} DeskMovesNothing(s: Shop, stages: seq<W.Stage>, call: Call, id: Id)
    requires call.CreateJob? || call.ImportJob? || call.UnassignTechnician? || call.ArchiveJob? || call.UnarchiveJob?
      || call.RemoveJob? || call.RemoveBooked? || call.ReopenChecklist? || call.ArchiveTask?
    requires id in s.jobs && Perform(s, stages, call).Success?
    ensures id in Perform(s, stages, call).value.jobs &&
      Perform(s, stages, call).value.jobs[id].status == s.jobs[id].status
    ensures Perform(s, stages, call).value.jobs[id].stageKey == s.jobs[id].stageKey
  {
  }

  lemma {:induction false} SubmitKeepsEnd(s: Shop, stages: seq<W.Stage>, checklist: Id, answers: seq<Answer>, now: Time,
                                          id: Id)
    requires id in s.jobs && Ended(s.jobs[id].status) && Submit(s, stages, checklist, answers, now).Success?
    ensures StatusAt(Submit(s, stages, checklist, answers, now).value, id) == Some(s.jobs[id].status)
  {
  }

  lemma {:induction false} StartKeepsEnd(s: Shop, stages: seq<W.Stage>, checklist: Id, job: Id, now: Time, id: Id)
    requires id in s.jobs && Ended(s.jobs[id].status)
    ensures var r := StartInspection(s, stages, job, now);
      r.Success? ==> StatusAt(r.value, id) == Some(s.jobs[id].status)
    ensures var r := StartChecklist(s, stages, checklist, job);
      r.Success? ==> StatusAt(r.value, id) == Some(s.jobs[id].status)
  {
  }

  lemma {:induction false} EndKept(s: Shop, stages: seq<W.Stage>, call: Call, id: Id)
    requires id in s.jobs && Ended(s.jobs[id].status) && !call.UpdateJob?
    ensures id in Step(s, stages, call).jobs && Step(s, stages, call).jobs[id].status == s.jobs[id].status
  {
    if Perform(s, stages, call).Success? {
      match call
      case ChangeStatus(job, to, now) =>
      case SubmitChecklist(checklist, answers, now) => SubmitKeepsEnd(s, stages, checklist, answers, now, id);
      case BeginInspection(job, now) => StartKeepsEnd(s, stages, "", job, now, id);
      case BeginChecklist(checklist, job) => StartKeepsEnd(s, stages, checklist, job, 0, id);
      case SendEstimate(job, _) =>
      case PortalDecision(job) =>
      case NoShowTask =>
      case _ => DeskMovesNothing(s, stages, call, id);
    }
  }

  /** A closed or no-show job changes its status in one call exactly when that is such a patch. */
  lemma {:induction false} EndExact(s: Shop, stages: seq<W.Stage>, call: Call, id: Id)
    requires id in s.jobs && Ended(s.jobs[id].status)
    ensures id in Step(s, stages, call).jobs
    ensures Step(s, stages, call).jobs[id].status == s.jobs[id].status <==> !Leaves(s, stages, call, id)
  {
    if call.UpdateJob? {
      if Live(s, call.id) {
        PatchedStatus(s.jobs[call.id], stages, call.dto);
      }
    } else {
      EndKept(s, stages, call, id);
    }
  }

  /** An accepted patch that asks for `booked`. */
  predicate BooksAgain(s: Shop, stages: seq<W.Stage>, call: Call, id: Id) {
    && call.UpdateJob? && call.id == id && Live(s, id)
    && Accepts(s.jobs[id], stages, call.dto) && Target(s.jobs[id], stages, call.dto) == Booked
  }

  lemma {:induction false} BookedStepExact(s: Shop, stages: seq<W.Stage>, call: Call, id: Id)
    requires id in s.jobs && s.jobs[id].status != Booked
    ensures id in Step(s, stages, call).jobs
    ensures Step(s, stages, call).jobs[id].status == Booked <==> BooksAgain(s, stages, call, id)
  {
    if call.UpdateJob? && Live(s, call.id) {
      PatchedStatus(s.jobs[call.id], stages, call.dto);
    }
    if call.ChangeStatus? && call.id == id {
      WorkflowProofs.TransitionShape(s.jobs[id].status, call.to);
    }
  }

  // ---- the board ----

  /** The board has an active stage with this key that stands for `booked`, as the default board does. */
  predicate HasBookedStage(stages: seq<W.Stage>, key: string) {
    key != "" && W.ResolveStage(stages, key).Success? && W.ResolveStage(stages, key).value.status == Booked
  }

  lemma {:induction false} DefaultBookedStage()
    ensures HasBookedStage(W.DEFAULT_STAGES, "booked")
  {
    assert W.ActiveWithKey("booked")(W.DEFAULT_STAGES[0]);
  }

  /** The stage has the status, or its lane. */
  predicate StandsFor(stage: W.Stage, status: Status) {
    stage.status == status || stage.category == W.CategoryFor(status)
  }

  /** The active stage on which a card with this key is shown. */
  function CardOn(stages: seq<W.Stage>, key: Option<string>): Option<W.Stage> {
    if key.Some? && W.ResolveStage(stages, key.value).Success? then Some(W.ResolveStage(stages, key.value).value)
    else None
  }

  predicate LaneFits(stages: seq<W.Stage>, key: Option<string>, status: Status) {
    CardOn(stages, key).Some? && StandsFor(CardOn(stages, key).value, status)
  }

  predicate OnItsLane(stages: seq<W.Stage>, job: Job) { LaneFits(stages, job.stageKey, job.status) }

  /** The active stage on which a patch puts the card of a job. */
  function CardAfter(job: Job, stages: seq<W.Stage>, dto: Patch): Option<W.Stage> {
    if dto.parts == Set(PartsReady) then CardOn(stages, Some("in_progress"))
    else if Lane(stages, dto).Some? then Lane(stages, dto)
    else if dto.stageKey.Absent? then CardOn(stages, job.stageKey)
    else None
  }

  /** An accepted patch leaves the job on a lane of its status exactly when the stage it puts the card
      on stands for the status it asks for. */
  lemma {:induction false} PatchedLane(job: Job, stages: seq<W.Stage>, dto: Patch)
    requires WorkflowProofs.AcceptedList(stages) && Accepts(job, stages, dto)
    ensures OnItsLane(stages, Patched(job, stages, dto).value) <==>
      CardAfter(job, stages, dto).Some? && StandsFor(CardAfter(job, stages, dto).value, Target(job, stages, dto))
  {
    PatchedStatus(job, stages, dto);
  }

  /** The guard under which a call leaves a job on its lane: a patch has one, and so do the two ways
      into `no_show`, for which a board need not have a stage. */
  predicate KeepsLane(s: Shop, stages: seq<W.Stage>, call: Call, id: Id)
    requires id in s.jobs
  {
    var job := s.jobs[id];
    match call
    case UpdateJob(patched, dto) =>
      patched == id && Live(s, id) && Accepts(job, stages, dto) ==>
        CardAfter(job, stages, dto).Some? && StandsFor(CardAfter(job, stages, dto).value, Target(job, stages, dto))
    case NoShowTask => Missed(job) ==> LaneFits(stages, job.stageKey, NoShow)
    case ChangeStatus(moved, to, _) =>
      moved == id && Live(s, id) && job.status == Booked && to == NoShow ==> W.DefaultKey(stages, NoShow).Some?
    case _ => true
  }

  lemma {:induction false} DefaultLaneFits(stages: seq<W.Stage>, status: Status)
    requires WorkflowProofs.AcceptedList(stages)
    ensures LaneFits(stages, W.DefaultKey(stages, status), status) <==>
      status != NoShow || W.DefaultKey(stages, status).Some?
  {
    WorkflowProofs.DefaultStageExists(stages, status);
    if W.DefaultKey(stages, status).Some? {
      WorkflowProofs.DefaultKeyResolves(stages, status);
    }
  }

  /** What the key of a moved job is: the default of its status, from one of the three lookups. */
  predicate Lands(stages: seq<W.Stage>, job: Job) {
    || job.stageKey == W.DefaultKey(stages, job.status)
    || (job.stageKey == W.QcDefaultKey(stages, job.status) && job.status != Booked && job.status != NoShow)
    || (job.stageKey == W.InspectionDefaultKey(stages, job.status) && W.CategoryFor(job.status) == W.ActiveLane)
  }

  /** No transition, so never into `no_show`. */
  predicate NotIntoNoShow(s: Shop, r: Shop, id: Id)
    requires id in s.jobs && id in r.jobs
  {
    r.jobs[id].status == NoShow ==> s.jobs[id].status == NoShow && r.jobs[id].stageKey == s.jobs[id].stageKey
  }

  predicate LandsIfMoved(s: Shop, r: Shop, stages: seq<W.Stage>, id: Id)
    requires id in s.jobs && id in r.jobs
  {
    (r.jobs[id].status == s.jobs[id].status && r.jobs[id].stageKey == s.jobs[id].stageKey) || Lands(stages, r.jobs[id])
  }

  lemma {:induction false} SubmitLands(s: Shop, stages: seq<W.Stage>, checklist: Id, answers: seq<Answer>, now: Time,
                                       id: Id)
    requires id in s.jobs && Submit(s, stages, checklist, answers, now).Success?
    ensures LandsIfMoved(s, Submit(s, stages, checklist, answers, now).value, stages, id)
    ensures NotIntoNoShow(s, Submit(s, stages, checklist, answers, now).value, id)
  {
  }

  lemma {:induction false} StartLands(s: Shop, stages: seq<W.Stage>, checklist: Id, job: Id, now: Time, id: Id)
    requires id in s.jobs
    ensures var r := StartInspection(s, stages, job, now);
      r.Success? ==> LandsIfMoved(s, r.value, stages, id) && NotIntoNoShow(s, r.value, id)
    ensures var r := StartChecklist(s, stages, checklist, job);
      r.Success? ==> LandsIfMoved(s, r.value, stages, id) && NotIntoNoShow(s, r.value, id)
  {
  }

  lemma {:induction false} PortalLands(s: Shop, stages: seq<W.Stage>, job: Id, id: Id)
    requires id in s.jobs && job in s.jobs
    ensures var r := RequestApproval(s, stages, job, true).value;
      LandsIfMoved(s, r, stages, id) && NotIntoNoShow(s, r, id)
    ensures var r := CustomerDecides(s, stages, job).value; LandsIfMoved(s, r, stages, id) && NotIntoNoShow(s, r, id)
  {
  }

  lemma {:induction false} TransitionLands(s: Shop, stages: seq<W.Stage>, job: Id, to: Status, now: Time, id: Id)
    requires id in s.jobs && Transition(s, stages, job, to, now).Success?
    ensures LandsIfMoved(s, Transition(s, stages, job, to, now).value, stages, id)
  {
  }

  lemma {:induction false} LandsOnDefault(s: Shop, stages: seq<W.Stage>, call: Call, id: Id)
    requires id in s.jobs && !call.UpdateJob? && !call.NoShowTask?
    ensures id in Step(s, stages, call).jobs && LandsIfMoved(s, Step(s, stages, call), stages, id)
    ensures call.ChangeStatus? || NotIntoNoShow(s, Step(s, stages, call), id)
  {
    if Perform(s, stages, call).Success? {
      match call
      case ChangeStatus(job, to, now) => TransitionLands(s, stages, job, to, now, id);
      case BeginInspection(job, now) => StartLands(s, stages, "", job, now, id);
      case BeginChecklist(checklist, job) => StartLands(s, stages, checklist, job, 0, id);
      case SubmitChecklist(checklist, answers, now) => SubmitLands(s, stages, checklist, answers, now, id);
      case SendEstimate(job, _) => PortalLands(s, stages, job, id);
      case PortalDecision(job) => PortalLands(s, stages, job, id);
      case _ => DeskMovesNothing(s, stages, call, id);
    }
  }

  /** Whenever a transition, an inspection, a QC step or the portal moves a job to another status,
      the job lands on a lane of the board that stands for it. */
  lemma {:induction false} LaneFollowsMove(s: Shop, stages: seq<W.Stage>, call: Call, id: Id)
    requires WorkflowProofs.AcceptedList(stages) && id in s.jobs && !call.UpdateJob? && !call.NoShowTask?
    ensures var r := Step(s, stages, call);
      id in r.jobs && (r.jobs[id].status != s.jobs[id].status && r.jobs[id].status != NoShow ==>
                       OnItsLane(stages, r.jobs[id]))
  {
    LandsOnDefault(s, stages, call, id);
    var status := Step(s, stages, call).jobs[id].status;
    WorkflowProofs.CopiesAgree(stages, status);
    DefaultLaneFits(stages, status);
  }

  /** A created job is on its lane exactly when the board has an active stage with the key `booked` that
      stands for a booked job; an imported job has no key and is on none. */
  lemma {:induction false} CreatedLane(s: Shop, stages: seq<W.Stage>, id: Id)
    requires id !in s.jobs
    ensures OnItsLane(stages, Create(s, id).value.jobs[id]) <==> LaneFits(stages, Some("booked"), Booked)
    ensures !OnItsLane(stages, CreateImported(s, id).value.jobs[id])
  {
  }

  lemma {:induction false} PatchLaneExact(s: Shop, stages: seq<W.Stage>, patched: Id, dto: Patch, id: Id)
    requires WorkflowProofs.AcceptedList(stages) && id in s.jobs && OnItsLane(stages, s.jobs[id])
    ensures var r := Step(s, stages, UpdateJob(patched, dto));
      id in r.jobs && (OnItsLane(stages, r.jobs[id]) <==> KeepsLane(s, stages, UpdateJob(patched, dto), id))
  {
    if Live(s, patched) {
      PatchedStatus(s.jobs[patched], stages, dto);
      if patched == id && Accepts(s.jobs[id], stages, dto) {
        PatchedLane(s.jobs[id], stages, dto);
      }
    }
  }

  lemma {:induction false} EnteredLane(job: Job, stages: seq<W.Stage>, to: Status, now: Time)
    requires WorkflowProofs.AcceptedList(stages) && CanTransition(job.status, to)
    ensures to == NoShow ==> job.status == Booked
    ensures OnItsLane(stages, Entered(job, to, W.DefaultKey(stages, to), now)) <==>
      to != NoShow || W.DefaultKey(stages, NoShow).Some?
  {
    WorkflowProofs.TransitionShape(job.status, to);
    DefaultLaneFits(stages, to);
  }

  lemma {:induction false} TransitionLaneExact(s: Shop, stages: seq<W.Stage>, moved: Id, to: Status, now: Time, id: Id)
    requires WorkflowProofs.AcceptedList(stages) && id in s.jobs && OnItsLane(stages, s.jobs[id])
    ensures var r := Step(s, stages, ChangeStatus(moved, to, now));
      id in r.jobs && (OnItsLane(stages, r.jobs[id]) <==> KeepsLane(s, stages, ChangeStatus(moved, to, now), id))
  {
    var r := Transition(s, stages, moved, to, now);
    if r.Success? && moved == id && s.jobs[id].status != to {
      EnteredLane(s.jobs[id], stages, to, now);
      assert r.value.jobs[id] == Entered(s.jobs[id], to, W.DefaultKey(stages, to), now);
    } else if r.Success? {
      assert id in r.value.jobs && r.value.jobs[id] == s.jobs[id];
    }
  }

  /** One call leaves a job that was on its lane on its lane exactly when its guard holds. */
  lemma {:induction false} LaneStepExact(s: Shop, stages: seq<W.Stage>, call: Call, id: Id)
    requires WorkflowProofs.AcceptedList(stages) && id in s.jobs && OnItsLane(stages, s.jobs[id])
    ensures id in Step(s, stages, call).jobs
    ensures OnItsLane(stages, Step(s, stages, call).jobs[id]) <==> KeepsLane(s, stages, call, id)
  {
    match call
    case UpdateJob(patched, dto) => PatchLaneExact(s, stages, patched, dto, id);
    case ChangeStatus(moved, to, now) => TransitionLaneExact(s, stages, moved, to, now, id);
    case NoShowTask =>
    case _ =>
      LandsOnDefault(s, stages, call, id);
      var status := Step(s, stages, call).jobs[id].status;
      WorkflowProofs.CopiesAgree(stages, status);
      DefaultLaneFits(stages, status);
  }

  // ---- the history ----

  function OfJob(id: Id): Change -> bool { (c: Change) => c.job == id }

  /** The rows start from nothing and each starts where the one before it ended. */
  predicate Chained(rows: seq<Change>) {
    && (rows != [] ==> rows[0].from == None)
    && forall i :: 0 < i < |rows| ==> rows[i].from == Some(rows[i - 1].to)
  }

  function Last(rows: seq<Change>): Option<Status> {
    if rows == [] then None else Some(rows[|rows| - 1].to)
  }

  /** The job's rows replay to its current status. */
  predicate Replays(s: Shop, id: Id) {
    var rows := Keep(OfJob(id), s.history);
    Chained(rows) && Last(rows) == StatusAt(s, id)
  }

  /** What an unrecorded no-show or an unrecorded job leaves, or what recorded moves make of it: a
      history that is never repaired. */
  predicate Broken(s: Shop, id: Id) {
    var rows := Keep(OfJob(id), s.history);
    id in s.jobs && (rows == [] || !Chained(rows) || (Last(rows) == Some(Booked) && s.jobs[id].status == NoShow))
  }

  /** What a call did to one job: nothing to its status or history, or a recorded move. */
  predicate Recorded(s: Shop, r: Shop, id: Id) {
    || (StatusAt(r, id) == StatusAt(s, id) && Keep(OfJob(id), r.history) == Keep(OfJob(id), s.history))
    || (StatusAt(r, id).Some?
        && Keep(OfJob(id), r.history) ==
          Keep(OfJob(id), s.history) + [Change(id, StatusAt(s, id), StatusAt(r, id).value)])
  }

  /** The two writes that leave no row: the no-show task marks the job, or the import creates it. */
  predicate LeavesNoRow(s: Shop, call: Call, id: Id) {
    || (call.NoShowTask? && id in s.jobs && Missed(s.jobs[id]))
    || (call == ImportJob(id) && id !in s.jobs)
  }

  lemma {:induction false} AppendsRow(s: Shop, r: Shop, id: Id, row: Change)
    requires r.history == s.history + [row]
    ensures Keep(OfJob(id), r.history) ==
      if row.job == id then Keep(OfJob(id), s.history) + [row] else Keep(OfJob(id), s.history)
  {
    KeepAppend(OfJob(id), s.history, [row]);
  }

  /** The shapes that `Move` and `Write` give to a shop, whatever else the call writes. */
  predicate WritesOne(s: Shop, r: Shop, id: Id) {
    && id in r.jobs && r.jobs == s.jobs[id := r.jobs[id]]
    && (r.history == s.history + [Change(id, StatusAt(s, id), r.jobs[id].status)]
        || (r.history == s.history && id in s.jobs && r.jobs[id].status == s.jobs[id].status))
  }

  lemma {:induction false} WritesOneRecorded(s: Shop, r: Shop, written: Id, id: Id)
    requires WritesOne(s, r, written)
    ensures Recorded(s, r, id)
  {
    if r.history != s.history {
      AppendsRow(s, r, id, Change(written, StatusAt(s, written), r.jobs[written].status));
    }
  }

  /** Every other call writes one job in one of the two shapes, or changes no status. */
  lemma {:induction false} CallWritesOne(s: Shop, stages: seq<W.Stage>, call: Call)
    requires !call.NoShowTask? && !call.ArchiveTask? && !call.RemoveBooked? && !call.ImportJob? &&
      Perform(s, stages, call).Success?
    ensures var r := Perform(s, stages, call).value;
      (r.jobs == s.jobs && r.history == s.history) || exists id :: WritesOne(s, r, id)
  {
    var r := Perform(s, stages, call).value;
    match call
    case SubmitChecklist(checklist, answers, now) =>
      var id := s.checklists[checklist].job;
      assert (r.jobs == s.jobs && r.history == s.history) || (id.Some? && WritesOne(s, r, id.value));
    case ReopenChecklist(checklist) =>
    case CreateJob(id) => assert WritesOne(s, r, id);
    case ChangeStatus(id, to, now) => assert r == s || WritesOne(s, r, id);
    case UpdateJob(id, dto) => assert WritesOne(s, r, id);
    case UnassignTechnician(id) => assert r == s || WritesOne(s, r, id);
    case ArchiveJob(id, now) => assert WritesOne(s, r, id);
    case UnarchiveJob(id) => assert WritesOne(s, r, id);
    case RemoveJob(id) => assert WritesOne(s, r, id);
    case BeginInspection(id, now) => assert (r.jobs == s.jobs && r.history == s.history) || WritesOne(s, r, id);
    case BeginChecklist(checklist, id) => assert (r.jobs == s.jobs && r.history == s.history) || WritesOne(s, r, id);
    case SendEstimate(id, _) => assert r == s || WritesOne(s, r, id);
    case PortalDecision(id) => assert r == s || WritesOne(s, r, id);
  }

  lemma {:induction false} StepRecorded(s: Shop, stages: seq<W.Stage>, call: Call, id: Id)
    requires !LeavesNoRow(s, call, id)
    ensures Recorded(s, Step(s, stages, call), id)
  {
    var r := Step(s, stages, call);
    if Perform(s, stages, call).Success? && !call.NoShowTask? && !call.ArchiveTask?
       && !call.RemoveBooked? && !call.ImportJob? {
      CallWritesOne(s, stages, call);
      if written :| WritesOne(s, r, written) {
        WritesOneRecorded(s, r, written, id);
      }
    }
  }

  lemma {:induction false} ChainedSnoc(rows: seq<Change>, c: Change)
    ensures Chained(rows + [c]) <==> Chained(rows) && c.from == Last(rows)
    ensures Last(rows + [c]) == Some(c.to)
  {
    var next := rows + [c];
    assert forall i :: 0 <= i < |rows| ==> next[i] == rows[i];
    assert next[|rows|] == c;
    if Chained(next) {
      forall i | 0 < i < |rows| ensures rows[i].from == Some(rows[i - 1].to) {
        assert next[i].from == Some(next[i - 1].to);
      }
    }
  }

  lemma {:induction false} RecordedReplays(s: Shop, r: Shop, id: Id)
    requires Recorded(s, r, id)
    ensures Replays(s, id) ==> Replays(r, id)
    ensures Broken(s, id) ==> Broken(r, id)
  {
    var rows, next := Keep(OfJob(id), s.history), Keep(OfJob(id), r.history);
    if next != rows {
      ChainedSnoc(rows, Change(id, StatusAt(s, id), StatusAt(r, id).value));
    }
  }

  lemma {:induction false} UnrecordedBreaks(s: Shop, stages: seq<W.Stage>, call: Call, id: Id)
    requires Replays(s, id) && LeavesNoRow(s, call, id)
    ensures Broken(Step(s, stages, call), id)
  {
  }
}
