/** Runs of the job services on a board that changes under them: which runs keep every job
    consistent, leave ended jobs alone, show a job on its lane, and leave a history that replays. */
module LifecycleRuns {
  import opened Wrappers
  import opened Sequences
  import opened JobStatus
  import W = Workflow
  import opened WorkflowProofs
  import opened Lifecycle
  import opened LifecycleProofs

  // ---- the invariant ----

  ghost predicate AlwaysInv(w: World, events: seq<Event>)
    decreases events
  {
    Inv(w.shop) && (events != [] ==> AlwaysInv(Next(w, events[0]), events[1..]))
  }

  predicate SafeEvent(w: World, e: Event) { e.Do? ==> Safe(w.shop, w.board, e.call) }

  predicate AlwaysSafe(w: World, events: seq<Event>)
    decreases events
  {
    events != [] ==> SafeEvent(w, events[0]) && AlwaysSafe(Next(w, events[0]), events[1..])
  }

  /** A run keeps every job consistent throughout exactly when each of its calls is safe when made. */
  lemma {:induction false} RunExact(w: World, events: seq<Event>)
    requires Inv(w.shop)
    ensures AlwaysInv(w, events) <==> AlwaysSafe(w, events)
    decreases events
  {
    if events == [] {
    } else {
      var next := Next(w, events[0]);
      if events[0].Do? {
        StepExact(w.shop, w.board, events[0].call);
      }
      if Inv(next.shop) {
        RunExact(next, events[1..]);
      }
    }
  }

  /** Runs of create, transition, inspections, QC, archiving, the scheduled tasks and the board. */
  lemma {:induction false} UnguardedRunInv(w: World, events: seq<Event>)
    requires Inv(w.shop) && forall i :: 0 <= i < |events| && events[i].Do? ==> !Guarded(events[i].call)
    ensures Inv(Run(w, events).shop)
    decreases events
  {
    if events == [] {
    } else {
      if events[0].Do? {
        StepExact(w.shop, w.board, events[0].call);
      }
      assert forall i :: 0 <= i < |events[1..]| ==> events[1..][i] == events[i + 1];
      UnguardedRunInv(Next(w, events[0]), events[1..]);
    }
  }

  // ---- the ends ----

  /** The job has the status now and after every event of the run. */
  predicate StaysAt(w: World, events: seq<Event>, id: Id, status: Status)
    decreases events
  {
    && StatusAt(w.shop, id) == Some(status)
    && (events != [] ==> StaysAt(Next(w, events[0]), events[1..], id, status))
  }

  predicate NeverLeaves(w: World, events: seq<Event>, id: Id)
    decreases events
  {
    events != [] ==>
      && (events[0].Do? ==> !Leaves(w.shop, w.board, events[0].call, id))
      && NeverLeaves(Next(w, events[0]), events[1..], id)
  }

  /** A run leaves a closed or no-show job where it is throughout exactly when none of its calls is
      an accepted patch of that job that asks for another status. */
  lemma {:induction false} EndsExact(w: World, events: seq<Event>, id: Id)
    requires id in w.shop.jobs && Ended(w.shop.jobs[id].status)
    ensures StaysAt(w, events, id, w.shop.jobs[id].status) <==> NeverLeaves(w, events, id)
    decreases events
  {
    if events == [] {
    } else {
      var next := Next(w, events[0]);
      if events[0].Do? {
        EndExact(w.shop, w.board, events[0].call, id);
      }
      if next.shop.jobs[id].status == w.shop.jobs[id].status {
        EndsExact(next, events[1..], id);
      }
    }
  }

  /** The job is not booked, now or after any event of the run. */
  predicate NeverBooked(w: World, events: seq<Event>, id: Id)
    decreases events
  {
    && id in w.shop.jobs && w.shop.jobs[id].status != Booked
    && (events != [] ==> NeverBooked(Next(w, events[0]), events[1..], id))
  }

  predicate NeverBooksAgain(w: World, events: seq<Event>, id: Id)
    decreases events
  {
    events != [] ==>
      && (events[0].Do? ==> !BooksAgain(w.shop, w.board, events[0].call, id))
      && NeverBooksAgain(Next(w, events[0]), events[1..], id)
  }

  /** A job that has left `booked` comes back to it in a run exactly when a patch asks for that: no
      transition leads there, and the other writers move to other statuses. */
  lemma {:induction false} BookedAgainExact(w: World, events: seq<Event>, id: Id)
    requires id in w.shop.jobs && w.shop.jobs[id].status != Booked
    ensures NeverBooked(w, events, id) <==> NeverBooksAgain(w, events, id)
    decreases events
  {
    if events == [] {
    } else {
      var next := Next(w, events[0]);
      if events[0].Do? {
        BookedStepExact(w.shop, w.board, events[0].call, id);
      }
      if next.shop.jobs[id].status != Booked {
        BookedAgainExact(next, events[1..], id);
      }
    }
  }

  // ---- the board ----

  /** A new board keeps the card of a job exactly when it has an active stage with the card's key that
      stands for the status of the job. */
  predicate KeepsCard(w: World, e: Event, id: Id)
    requires id in w.shop.jobs
  {
    match e
    case Do(call) => KeepsLane(w.shop, w.board, call, id)
    case SaveBoard(input) => OnItsLane(BoardSaved(w.board, input), w.shop.jobs[id])
    case WriteSetting(setting) => OnItsLane(W.Stages(setting), w.shop.jobs[id])
  }

  predicate AlwaysOnItsLane(w: World, events: seq<Event>, id: Id)
    decreases events
  {
    && id in w.shop.jobs && OnItsLane(w.board, w.shop.jobs[id])
    && (events != [] ==> AlwaysOnItsLane(Next(w, events[0]), events[1..], id))
  }

  predicate AlwaysKeepsCard(w: World, events: seq<Event>, id: Id)
    decreases events
  {
    events != [] ==>
      id in w.shop.jobs && KeepsCard(w, events[0], id) && AlwaysKeepsCard(Next(w, events[0]), events[1..], id)
  }

  lemma {:induction false} CardExact(w: World, e: Event, id: Id)
    requires AcceptedList(w.board) && id in w.shop.jobs && OnItsLane(w.board, w.shop.jobs[id])
    ensures id in Next(w, e).shop.jobs
    ensures OnItsLane(Next(w, e).board, Next(w, e).shop.jobs[id]) <==> KeepsCard(w, e, id)
  {
    if e.Do? {
      LaneStepExact(w.shop, w.board, e.call, id);
    }
  }

  lemma {:induction false} SavedBoardAccepted(board: seq<W.Stage>, input: seq<W.Raw>)
    requires AcceptedList(board)
    ensures AcceptedList(BoardSaved(board, input))
  {
    if W.Normalize(input).Success? {
      StagesAccepted(Some(W.WrittenAll(W.Normalize(input).value)));
    }
  }

  /** The stages in force are an accepted list, whatever is saved or written. */
  lemma {:induction false} BoardAccepted(w: World, e: Event)
    requires AcceptedList(w.board)
    ensures AcceptedList(Next(w, e).board)
  {
    match e
    case Do(_) =>
    case SaveBoard(input) => SavedBoardAccepted(w.board, input);
    case WriteSetting(setting) => StagesAccepted(setting);
  }

  /** The board shows a job on a lane of its status throughout a run, boards saved on the way
      included, exactly when every guard holds. */
  lemma {:induction false} LaneRunExact(w: World, events: seq<Event>, id: Id)
    requires AcceptedList(w.board) && id in w.shop.jobs && OnItsLane(w.board, w.shop.jobs[id])
    ensures AlwaysOnItsLane(w, events, id) <==> AlwaysKeepsCard(w, events, id)
    decreases events
  {
    if events == [] {
    } else {
      var next := Next(w, events[0]);
      CardExact(w, events[0], id);
      BoardAccepted(w, events[0]);
      if OnItsLane(next.board, next.shop.jobs[id]) {
        LaneRunExact(next, events[1..], id);
      }
    }
  }

  /** From its creation on, a job is on a lane of its status throughout a run exactly when the board has
      a stage for it and every guard holds. */
  lemma {:induction false} LaneFromCreation(w: World, events: seq<Event>, id: Id)
    requires AcceptedList(w.board) && id !in w.shop.jobs
    ensures var next := Next(w, Do(CreateJob(id)));
      AlwaysOnItsLane(next, events, id) <==>
        LaneFits(w.board, Some("booked"), Booked) && AlwaysKeepsCard(next, events, id)
  {
    var next := Next(w, Do(CreateJob(id)));
    CreatedLane(w.shop, w.board, id);
    if OnItsLane(w.board, next.shop.jobs[id]) {
      LaneRunExact(next, events, id);
    }
  }

  // ---- the history ----

  /** An unrecorded write happens to the job at some point of the run. */
  predicate Unrecorded(w: World, events: seq<Event>, id: Id)
    decreases events
  {
    events != [] &&
      ((events[0].Do? && LeavesNoRow(w.shop, events[0].call, id)) || Unrecorded(Next(w, events[0]), events[1..], id))
  }

  lemma {:induction false} StaysBroken(w: World, events: seq<Event>, id: Id)
    requires Broken(w.shop, id)
    ensures Broken(Run(w, events).shop, id)
    decreases events
  {
    if events == [] {
    } else {
      var next := Next(w, events[0]);
      if events[0].Do? && !LeavesNoRow(w.shop, events[0].call, id) {
        StepRecorded(w.shop, w.board, events[0].call, id);
        RecordedReplays(w.shop, next.shop, id);
      }
      StaysBroken(next, events[1..], id);
    }
  }

  /** After any run, a job's history replays to its status exactly when neither the no-show task
      marked it nor the import created it: those are the writers of the status that leave no row. */
  lemma {:induction false} HistoryReplays(w: World, events: seq<Event>, id: Id)
    requires Replays(w.shop, id)
    ensures Replays(Run(w, events).shop, id) <==> !Unrecorded(w, events, id)
    decreases events
  {
    if events == [] {
    } else {
      var next := Next(w, events[0]);
      if events[0].Do? && LeavesNoRow(w.shop, events[0].call, id) {
        UnrecordedBreaks(w.shop, w.board, events[0].call, id);
        StaysBroken(next, events[1..], id);
      } else {
        if events[0].Do? {
          StepRecorded(w.shop, w.board, events[0].call, id);
          RecordedReplays(w.shop, next.shop, id);
        }
        HistoryReplays(next, events[1..], id);
      }
    }
  }

  /** Starting from an empty shop. */
  lemma {:induction false} HistoryFromEmpty(board: seq<W.Stage>, events: seq<Event>, id: Id)
    ensures Replays(Run(World(EMPTY, board), events).shop, id) <==> !Unrecorded(World(EMPTY, board), events, id)
  {
    HistoryReplays(World(EMPTY, board), events, id);
  }

  // ---- runs that break a guard ----

  lemma {:induction false} RunTwo(w: World, a: Event, b: Event)
    ensures Run(w, [a, b]) == Next(Next(w, a), b)
  {
    assert [a, b][1..] == [b] && [b][1..] == [];
    assert Run(w, [a, b]) == Run(Next(w, a), [b]);
  }

  lemma {:induction false} RunThree(w: World, a: Event, b: Event, c: Event)
    ensures Run(w, [a, b, c]) == Next(Next(Next(w, a), b), c)
  {
    assert [a, b, c][1..] == [b, c];
    assert Run(w, [a, b, c]) == Run(Next(w, a), [b, c]);
    RunTwo(Next(w, a), b, c);
  }

  lemma {:induction false} RunFive(w: World, a: Event, b: Event, c: Event, d: Event, e: Event)
    ensures Run(w, [a, b, c, d, e]) == Next(Next(Next(Next(Next(w, a), b), c), d), e)
  {
    assert [a, b, c, d, e][1..] == [b, c, d, e] && [b, c, d, e][1..] == [c, d, e];
    assert Run(Next(w, a), [b, c, d, e]) == Run(Next(Next(w, a), b), [c, d, e]);
    RunThree(Next(Next(w, a), b), c, d, e);
  }

  lemma {:induction false} SafeThree(w: World, a: Event, b: Event, c: Event)
    requires SafeEvent(w, a) && SafeEvent(Next(w, a), b) && SafeEvent(Next(Next(w, a), b), c)
    ensures AlwaysSafe(w, [a, b, c])
  {
    assert [a, b, c][1..] == [b, c] && [b, c][1..] == [c];
    assert AlwaysSafe(Next(Next(w, a), b), [c]);
    assert AlwaysSafe(Next(w, a), [b, c]);
  }

  function Created(board: seq<W.Stage>, id: Id): World { Next(World(EMPTY, board), Do(CreateJob(id))) }

  /** A job as it is created, alone in the shop. */
  lemma {:induction false} CreatedAlone(board: seq<W.Stage>, id: Id)
    ensures Created(board, id) == World(Shop(map[id := NEW_JOB], [Change(id, None, Booked)], {}, map[]), board)
  {
  }

  /** Moving a closed job to a stage of the workshop view reopens it with its invoice date. */
  lemma {:induction false} PatchReopensClosedJob(board: seq<W.Stage>, id: Id, now: Time)
    ensures var dto := Patch(None, Set(WorkInProgress), Absent, Absent);
      var r := Run(World(EMPTY, board),
                   [Do(CreateJob(id)), Do(ChangeStatus(id, Closed, now)), Do(UpdateJob(id, dto))]).shop;
      id in r.jobs && r.jobs[id].status == InProgress && r.jobs[id].invoicedAt == Some(now)
  {
    var dto := Patch(None, Set(WorkInProgress), Absent, Absent);
    var a, b, c := Do(CreateJob(id)), Do(ChangeStatus(id, Closed, now)), Do(UpdateJob(id, dto));
    RunThree(World(EMPTY, board), a, b, c);
    CreatedAlone(board, id);
    var s := Next(Created(board, id), b).shop;
    assert s.jobs[id].status == Closed && s.jobs[id].invoicedAt == Some(now) && Live(s, id);
  }

  lemma {:induction false} MissedJob(board: seq<W.Stage>, id: Id)
    ensures Next(Created(board, id), Do(NoShowTask)).shop.jobs == map[id := NEW_JOB.(status := NoShow, stage := None)]
  {
    CreatedAlone(board, id);
  }

  lemma {:induction false} MissedJobPatched(s: Shop, board: seq<W.Stage>, id: Id, key: string)
    requires HasBookedStage(board, key) && id in s.jobs && s.jobs[id] == NEW_JOB.(status := NoShow, stage := None)
    ensures var patch := Patch(None, Absent, Set(key), Absent);
      Safe(s, board, UpdateJob(id, patch)) && StatusAt(Step(s, board, UpdateJob(id, patch)), id) == Some(Booked)
  {
    PatchedStatus(s.jobs[id], board, Patch(None, Absent, Set(key), Absent));
  }

  /** A job that did not show up is booked again by a patch that names the booked stage, although
      every call of the run is safe and no transition leads to `booked`. */
  lemma {:induction false} NoShowComesBack(board: seq<W.Stage>, id: Id, key: string)
    requires HasBookedStage(board, key)
    ensures var w, patch := World(EMPTY, board), UpdateJob(id, Patch(None, Absent, Set(key), Absent));
      && AlwaysSafe(w, [Do(CreateJob(id)), Do(NoShowTask), Do(patch)])
      && StatusAt(Run(w, [Do(CreateJob(id)), Do(NoShowTask)]).shop, id) == Some(NoShow)
      && StatusAt(Run(w, [Do(CreateJob(id)), Do(NoShowTask), Do(patch)]).shop, id) == Some(Booked)
  {
    var w, patch := World(EMPTY, board), UpdateJob(id, Patch(None, Absent, Set(key), Absent));
    var a, b, c := Do(CreateJob(id)), Do(NoShowTask), Do(patch);
    CreatedAlone(board, id);
    MissedJob(board, id);
    MissedJobPatched(Next(Created(board, id), b).shop, board, id, key);
    RunThree(w, a, b, c);
    SafeThree(w, a, b, c);
    RunTwo(w, a, b);
  }

  /** On the default board. */
  lemma {:induction false} DefaultBoardBooksAgain(id: Id)
    ensures var patch := UpdateJob(id, Patch(None, Absent, Set("booked"), Absent));
      var r := Run(World(EMPTY, W.DEFAULT_STAGES), [Do(CreateJob(id)), Do(NoShowTask), Do(patch)]);
      StatusAt(r.shop, id) == Some(Booked)
  {
    DefaultBookedStage();
    NoShowComesBack(W.DEFAULT_STAGES, id, "booked");
  }

  function ReadyShop(board: seq<W.Stage>, id: Id, now: Time): Shop {
    var s2 := Step(Created(board, id).shop, board, ChangeStatus(id, Checking, now));
    Step(Step(s2, board, ChangeStatus(id, InProgress, now)), board, ChangeStatus(id, Ready, now))
  }

  lemma {:induction false} ReadyJob(board: seq<W.Stage>, id: Id, now: Time)
    ensures var s := ReadyShop(board, id, now);
      Live(s, id) && s.jobs[id].status == Ready && s.jobs[id].completedAt == Some(now)
  {
    CreatedAlone(board, id);
    var s2 := Step(Created(board, id).shop, board, ChangeStatus(id, Checking, now));
    assert Live(s2, id) && s2.jobs[id].status == Checking;
    var s3 := Step(s2, board, ChangeStatus(id, InProgress, now));
    assert Live(s3, id) && s3.jobs[id].status == InProgress;
  }

  lemma {:induction false} PortalKeepsCompletion(s: Shop, board: seq<W.Stage>, id: Id)
    requires id in s.jobs && s.jobs[id].status == Ready
    ensures var r := Step(s, board, PortalDecision(id));
      id in r.jobs && r.jobs[id].status == Approved && r.jobs[id].completedAt == s.jobs[id].completedAt
  {
  }

  /** A customer who decides on a job that is already ready leaves it approved and completed. */
  lemma {:induction false} PortalLeavesCompleted(board: seq<W.Stage>, id: Id, now: Time)
    ensures var events := [Do(CreateJob(id)), Do(ChangeStatus(id, Checking, now)),
                           Do(ChangeStatus(id, InProgress, now)), Do(ChangeStatus(id, Ready, now)),
                           Do(PortalDecision(id))];
      var r := Run(World(EMPTY, board), events).shop;
      id in r.jobs && r.jobs[id].status == Approved && r.jobs[id].completedAt == Some(now)
  {
    ReadyJob(board, id, now);
    PortalKeepsCompletion(ReadyShop(board, id, now), board, id);
    RunFive(World(EMPTY, board), Do(CreateJob(id)), Do(ChangeStatus(id, Checking, now)),
            Do(ChangeStatus(id, InProgress, now)), Do(ChangeStatus(id, Ready, now)), Do(PortalDecision(id)));
  }

  /** The no-show task leaves a history that does not replay. */
  lemma {:induction false} NoShowLeavesNoRow(board: seq<W.Stage>, id: Id)
    ensures !Replays(Run(World(EMPTY, board), [Do(CreateJob(id)), Do(NoShowTask)]).shop, id)
  {
    var w, a, b := World(EMPTY, board), Do(CreateJob(id)), Do(NoShowTask);
    CreatedAlone(board, id);
    HistoryFromEmpty(board, [a, b], id);
    assert [a, b][1..] == [b];
    assert Unrecorded(Next(w, a), [b], id);
  }

  /** The event takes the card of the job off its lane. */
  predicate LosesCard(w: World, e: Event, id: Id) {
    && id in w.shop.jobs && OnItsLane(w.board, w.shop.jobs[id])
    && id in Next(w, e).shop.jobs && !OnItsLane(Next(w, e).board, Next(w, e).shop.jobs[id])
  }

  /** A board on which the stage `booked` stands for booked jobs only, like the default one. */
  predicate BookedApart(board: seq<W.Stage>) {
    && CardOn(board, Some("booked")).Some?
    && CardOn(board, Some("booked")).value.status == Booked
    && CardOn(board, Some("booked")).value.category == W.BookedLane
  }

  lemma {:induction false} DefaultBookedApart()
    ensures BookedApart(W.DEFAULT_STAGES)
  {
    DefaultBookedStage();
    assert W.ActiveWithKey("booked")(W.DEFAULT_STAGES[0]);
  }

  lemma {:induction false} NewJobOnLane(board: seq<W.Stage>, job: Job)
    requires BookedApart(board) && job.stageKey == Some("booked")
    ensures OnItsLane(board, job) <==> job.status == Booked
  {
  }

  lemma {:induction false} NewJobPatched(board: seq<W.Stage>, id: Id)
    ensures var r := Update(Created(board, id).shop, board, id, Patch(None, Set(WorkInProgress), Absent, Absent));
      r.Success? && id in r.value.jobs
      && r.value.jobs[id].status == InProgress && r.value.jobs[id].stageKey == Some("booked")
  {
    CreatedAlone(board, id);
  }

  /** Moving a new job on the workshop view leaves its card on the booked stage. */
  lemma {:induction false} PatchLosesCard(board: seq<W.Stage>, id: Id)
    requires BookedApart(board)
    ensures LosesCard(Created(board, id), Do(UpdateJob(id, Patch(None, Set(WorkInProgress), Absent, Absent))), id)
  {
    var patch := Patch(None, Set(WorkInProgress), Absent, Absent);
    CreatedAlone(board, id);
    NewJobPatched(board, id);
    var patched := Update(Created(board, id).shop, board, id, patch).value;
    assert Next(Created(board, id), Do(UpdateJob(id, patch))) == World(patched, board);
    NewJobOnLane(board, NEW_JOB);
    NewJobOnLane(board, patched.jobs[id]);
  }

  lemma {:induction false} DefaultBoardLosesCard(id: Id)
    ensures var patch := Do(UpdateJob(id, Patch(None, Set(WorkInProgress), Absent, Absent)));
      LosesCard(Created(W.DEFAULT_STAGES, id), patch, id)
  {
    DefaultBookedApart();
    PatchLosesCard(W.DEFAULT_STAGES, id);
  }

  lemma {:induction false} FourLanesSaved(board: seq<W.Stage>)
    ensures BoardSaved(board, W.WrittenAll(FourLanes("b"))) == FourLanes("b")
  {
    FourLanesAccepted("b");
    LetterLabel('b', "b");
  }

  lemma {:induction false} FourLanesNotBooked()
    ensures CardOn(FourLanes("b"), Some("booked")).None?
  {
    IndexWhereNone(W.ActiveWithKey("booked"), FourLanes("b"));
  }

  /** Saving a board without the stage `booked` takes every new job off its lane. */
  lemma {:induction false} SavedBoardLosesCard(board: seq<W.Stage>, id: Id)
    requires BookedApart(board)
    ensures LosesCard(Created(board, id), SaveBoard(W.WrittenAll(FourLanes("b"))), id)
  {
    var w, e := Created(board, id), SaveBoard(W.WrittenAll(FourLanes("b")));
    CreatedAlone(board, id);
    NewJobOnLane(board, NEW_JOB);
    FourLanesSaved(board);
    FourLanesNotBooked();
    assert Next(w, e) == World(w.shop, FourLanes("b"));
  }
}
