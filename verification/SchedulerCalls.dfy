/**
 The scheduler runs only where the code calls it: after an insertion was saved, when a run ends, and
 after a pass that re-runs something. A boot is none of these, so what it finds in the queue waits.
 */
module SchedulerCalls {
  import opened AttemptDiscipline
  import opened Collections
  import opened ResponderState
  import opened ResponderTasks
  import opened ResponderWorld
  import ExecutionJournal
  import ResultBuilder
  import StrandingRun

  /** The responder with the calls of the scheduler that are still to come, and how many runs it began. */
  datatype Driven = Driven(world: World, due: nat, started: nat)

  /** `Plain` is any step but a start; `Skip` stands for a call that never comes because the save before it failed. */
  datatype Move =
    | Plain(step: Step)
    | Call(appended: nat -> bool, saved: nat -> bool)
    | Skip

  /** After these steps the code calls the scheduler. */
  predicate Owes(cfg: Config, w: World, step: Step) {
    Enabled(cfg, w, step) &&
    (step.Accept? || step.HttpAccept? || step.Retire?
     || (step.Reconcile? && Decide(cfg, w.process.v.state, w.process.v.pending[0], step.answer).Rerun?))
  }

  function QueueLength(w: World): nat {
    if w.process.Up? then |w.process.v.state.queue| else 0
  }

  function RunCount(w: World): nat {
    if w.process.Up? then |w.process.v.runs| else 0
  }

  /** One call: tasks are started while there are any and a worker is free. */
  function Pass(cfg: Config, w: World, appended: nat -> bool, saved: nat -> bool): (w': World)
    ensures RunCount(w') >= RunCount(w)
    decreases QueueLength(w)
  {
    var start := Start(appended(QueueLength(w)), saved(QueueLength(w)));
    if !Enabled(cfg, w, start) then w else
      StartShortens(cfg, w, start);
      Pass(cfg, Next(cfg, w, start), appended, saved)
  }

  lemma StartShortens(cfg: Config, w: World, start: Step)
    requires start.Start? && Enabled(cfg, w, start)
    ensures var w' := Next(cfg, w, start);
            && w'.process.Up? && QueueLength(w') < QueueLength(w)
            && w'.process.v.state.queue == w.process.v.state.queue[1..]
            && w'.process.v.state.workers == w.process.v.state.workers
            && w'.process.v.state.tasks.Keys == w.process.v.state.tasks.Keys
            && (if w.process.v.state.queue[0] in w.process.v.state.tasks then RunCount(w') == RunCount(w) + 1
                else RunCount(w') == RunCount(w) && w'.process.v.state.active == w.process.v.state.active)
  {
  }

  function After(cfg: Config, s: Driven, move: Move): Driven {
    match move
    case Plain(step) =>
      if step.Start? then s
      else if Enabled(cfg, s.world, step) && (step.Crash? || step.Boot?) then Driven(Next(cfg, s.world, step), 0, s.started)
      else Driven(Next(cfg, s.world, step), s.due + One(Owes(cfg, s.world, step)), s.started)
    case Call(appended, saved) =>
      if s.due == 0 then s else
        var w := Pass(cfg, s.world, appended, saved);
        Driven(w, s.due - 1, s.started + (RunCount(w) - RunCount(s.world)))
    case Skip => if s.due == 0 then s else s.(due := s.due - 1)
  }

  function Drive(cfg: Config, s: Driven, moves: seq<Move>): Driven
    decreases |moves|
  {
    if moves == [] then s else Drive(cfg, After(cfg, s, moves[0]), moves[1..])
  }

  // -------------------------------------------------------------- still a run of the world

  lemma {:induction false} ExecuteConcat(cfg: Config, w: World, before: seq<Step>, more: seq<Step>)
    ensures Execute(cfg, w, before + more) == Execute(cfg, Execute(cfg, w, before), more)
    decreases |more|
  {
    if more == [] {
      assert before + more == before;
    } else {
      var init, last := more[..|more| - 1], more[|more| - 1];
      assert before + more == before + init + [last] && (before + init + [last])[..|before + init|] == before + init;
      ExecuteConcat(cfg, w, before, init);
    }
  }

  lemma {:induction false} PassIsARun(cfg: Config, w: World, appended: nat -> bool, saved: nat -> bool) returns (steps: seq<Step>)
    ensures Execute(cfg, w, steps) == Pass(cfg, w, appended, saved)
    decreases QueueLength(w)
  {
    var start := Start(appended(QueueLength(w)), saved(QueueLength(w)));
    if Enabled(cfg, w, start) {
      StartShortens(cfg, w, start);
      var rest := PassIsARun(cfg, Next(cfg, w, start), appended, saved);
      ExecuteSnoc(cfg, w, [], start);
      assert [] + [start] == [start];
      ExecuteConcat(cfg, w, [start], rest);
      steps := [start] + rest;
    } else {
      steps := [];
    }
  }

  lemma MoveIsARun(cfg: Config, s: Driven, move: Move) returns (steps: seq<Step>)
    ensures Execute(cfg, s.world, steps) == After(cfg, s, move).world
  {
    steps := [];
    match move
    case Plain(step) =>
      if !step.Start? {
        ExecuteSnoc(cfg, s.world, [], step);
        steps := [] + [step];
      }
    case Call(appended, saved) =>
      if s.due > 0 {
        steps := PassIsARun(cfg, s.world, appended, saved);
      }
    case Skip =>
  }

  /** Whatever the scheduler is called for, the world goes through a run of its own steps: all that is proved of runs holds. */
  lemma {:induction false} DriveIsARun(cfg: Config, s: Driven, moves: seq<Move>) returns (steps: seq<Step>)
    ensures Execute(cfg, s.world, steps) == Drive(cfg, s, moves).world
    decreases |moves|
  {
    if moves == [] {
      steps := [];
    } else {
      var first := MoveIsARun(cfg, s, moves[0]);
      var rest := DriveIsARun(cfg, After(cfg, s, moves[0]), moves[1..]);
      ExecuteConcat(cfg, s.world, first, rest);
      steps := first + rest;
    }
  }

  // ----------------------------------------------------------------- what waits in the queue

  /** Some known task is queued and no worker is busy. */
  ghost predicate TaskWaits(s: State) {
    s.active == [] && exists id :: id in s.queue && id in s.tasks
  }

  ghost predicate Waits(w: World) {
    w.process.Up? && TaskWaits(w.process.v.state)
  }

  lemma {:induction false} PassStartsOne(cfg: Config, w: World, appended: nat -> bool, saved: nat -> bool)
    requires Waits(w)
    ensures RunCount(Pass(cfg, w, appended, saved)) > RunCount(w)
    decreases QueueLength(w)
  {
    var start := Start(appended(QueueLength(w)), saved(QueueLength(w)));
    StartShortens(cfg, w, start);
    var s := w.process.v.state;
    if s.queue[0] !in s.tasks {
      var id :| id in s.queue && id in s.tasks;
      assert id in s.queue[1..];
      PassStartsOne(cfg, Next(cfg, w, start), appended, saved);
    }
  }

  lemma QueueingWaits(s: State, t: Task)
    requires TaskWaits(s)
    ensures TaskWaits(Enqueue(s, t)) && TaskWaits(Remember(s, t))
  {
    SortMembers(Remember(s, t).tasks, s.queue + [t.taskId]);
    var id :| id in s.queue && id in s.tasks;
    assert id in s.queue + [t.taskId];
  }

  lemma InsertionWaits(cfg: Config, w: World, step: Step)
    requires Waits(w) && NewTask(cfg, w, step).Some?
    ensures Waits(Next(cfg, w, step))
  {
    InsertionEffect(cfg, w, step);
    QueueingWaits(w.process.v.state, NewTask(cfg, w, step).value);
  }

  lemma DecisionWaits(s: State, e: ExecutionJournal.Entry, d: Decision, newAttempt: Id)
    requires TaskWaits(s)
    ensures TaskWaits(AfterDecision(s, e, d, newAttempt))
  {
    var id :| id in s.queue && id in s.tasks;
    assert id in AfterDecision(s, e, d, newAttempt).queue;
  }

  lemma FinishWaits(cfg: Config, v: Volatile, i: nat, execution: ResultBuilder.Execution)
    requires TaskWaits(v.state) && i < |v.runs|
    ensures TaskWaits(DoFinish(cfg, v, i, execution).state)
  {
    var id :| id in v.state.queue && id in v.state.tasks;
    assert id in DoFinish(cfg, v, i, execution).state.queue;
  }

  lemma RestWaits(cfg: Config, w: World, step: Step)
    requires Waits(w) && NewTask(cfg, w, step).None?
    requires !step.Start? && !step.Crash? && !step.Finish? && !step.Reconcile? && !step.Retire?
    ensures Next(cfg, w, step).process.Up? && Next(cfg, w, step).process.v.state == w.process.v.state
  {
  }

  lemma StepWaits(cfg: Config, w: World, step: Step)
    requires Waits(w) && !step.Start? && !step.Crash?
    ensures Waits(Next(cfg, w, step))
  {
    if NewTask(cfg, w, step).Some? {
      InsertionWaits(cfg, w, step);
    } else if Enabled(cfg, w, step) && (step.Finish? || step.Reconcile? || step.Retire?) {
      var v := w.process.v;
      match step
      case Finish(i, execution) => FinishWaits(cfg, v, i, execution);
      case Reconcile(answer, newAttempt, _) => DecisionWaits(v.state, v.pending[0], Decide(cfg, v.state, v.pending[0], answer), newAttempt);
      case Retire(_) =>
    } else if !step.Finish? && !step.Reconcile? && !step.Retire? {
      RestWaits(cfg, w, step);
    }
  }

  // ------------------------------------------------------------------ exactly when it starts

  predicate Crashes(move: Move) {
    move.Plain? && move.step.Crash?
  }

  /** Some call of the scheduler goes through. */
  predicate Called(cfg: Config, s: Driven, moves: seq<Move>)
    decreases |moves|
  {
    moves != [] && ((moves[0].Call? && s.due > 0) || Called(cfg, After(cfg, s, moves[0]), moves[1..]))
  }

  lemma {:induction false} StartedOnlyGrows(cfg: Config, s: Driven, moves: seq<Move>)
    ensures Drive(cfg, s, moves).started >= s.started
    decreases |moves|
  {
    if moves != [] {
      StartedOnlyGrows(cfg, After(cfg, s, moves[0]), moves[1..]);
    }
  }

  lemma {:induction false} StartsExactlyWhenCalled(cfg: Config, s: Driven, moves: seq<Move>)
    requires Waits(s.world) && forall move :: move in moves ==> !Crashes(move)
    ensures Drive(cfg, s, moves).started > s.started <==> Called(cfg, s, moves)
    decreases |moves|
  {
    if moves != [] {
      var move, s' := moves[0], After(cfg, s, moves[0]);
      assert move in moves;
      if move.Call? && s.due > 0 {
        PassStartsOne(cfg, s.world, move.appended, move.saved);
        StartedOnlyGrows(cfg, s', moves[1..]);
      } else {
        if move.Plain? && !move.step.Start? {
          StepWaits(cfg, s.world, move.step);
        }
        StartsExactlyWhenCalled(cfg, s', moves[1..]);
      }
    }
  }

  /** Nothing that calls the scheduler happens. */
  predicate Quiet(cfg: Config, s: Driven, moves: seq<Move>)
    decreases |moves|
  {
    moves != [] ==>
      && !(moves[0].Plain? && (Owes(cfg, s.world, moves[0].step) || moves[0].step.Crash?))
      && Quiet(cfg, After(cfg, s, moves[0]), moves[1..])
  }

  lemma QuietStep(cfg: Config, w: World, step: Step)
    requires w.process.Up? && w.process.v.runs == [] && !step.Start? && !step.Crash? && !Owes(cfg, w, step)
    ensures var w' := Next(cfg, w, step);
            w'.process.Up? && w'.process.v.runs == [] && w'.process.v.state.queue == w.process.v.state.queue && w'.invoked == w.invoked
  {
    OnlyInvokeInvokes(cfg, w, step);
    if NewTask(cfg, w, step).Some? {
      InsertionEffect(cfg, w, step);
    }
  }

  lemma {:induction false} QuietChangesNothing(cfg: Config, s: Driven, moves: seq<Move>)
    requires s.world.process.Up? && s.world.process.v.runs == [] && s.due == 0 && Quiet(cfg, s, moves)
    ensures var w, w' := s.world, Drive(cfg, s, moves).world;
            && w'.process.Up? && w'.process.v.runs == [] && w'.process.v.state.queue == w.process.v.state.queue
            && w'.invoked == w.invoked && !Called(cfg, s, moves)
    decreases |moves|
  {
    if moves != [] {
      if moves[0].Plain? && !moves[0].step.Start? {
        QuietStep(cfg, s.world, moves[0].step);
      }
      QuietChangesNothing(cfg, After(cfg, s, moves[0]), moves[1..]);
    }
  }

  /**
   A boot that finds a known task in the snapshot's queue starts nothing by itself: over every
   continuation of that boot something is started if and only if a call of the scheduler goes
   through, and while nothing happens that makes the code call it, the queue stays as it was hydrated.
   */
  lemma {:induction false} HydratedQueueWaitsExactlyWhen(cfg: Config, w: World, bootId: Id, workers: int, moves: seq<Move>)
    requires Enabled(cfg, w, Boot(bootId, workers)) && exists id :: id in w.snapshot.queue && id in w.snapshot.tasks
    requires forall move :: move in moves ==> !Crashes(move)
    ensures var s := Driven(Next(cfg, w, Boot(bootId, workers)), 0, 0);
            && (Drive(cfg, s, moves).started > 0 <==> Called(cfg, s, moves))
            && (Quiet(cfg, s, moves) ==>
                  var w' := Drive(cfg, s, moves).world;
                  w'.process.Up? && w'.process.v.runs == [] && w'.process.v.state.queue == w.snapshot.queue && w'.invoked == w.invoked)
  {
    var booted := Next(cfg, w, Boot(bootId, workers));
    assert booted.process == Up(Volatile(bootId, Hydrated(w.snapshot, workers), w.snapshotOrdered, [], [], []));
    var s := Driven(booted, 0, 0);
    StartsExactlyWhenCalled(cfg, s, moves);
    if Quiet(cfg, s, moves) {
      QuietChangesNothing(cfg, s, moves);
    }
  }

  /** It happens: a task posted and saved, a crash before it starts, and a boot with nothing to reconcile. */
  lemma QueueLeftWaiting(cfg: Config) returns (steps: seq<Step>)
    requires cfg.identity.hotlineIds != []
    ensures Calm(cfg, InitialWorld(1), steps)
    ensures var w := Execute(cfg, InitialWorld(1), steps);
            w.process.Up? && w.process.v.state.queue == ["t"] && Waits(w) && w.process.v.runs == [] && w.journal == []
  {
    var posted := StrandingRun.BootAndPost(cfg);
    var w := Execute(cfg, InitialWorld(1), posted);
    assert w.snapshot.queue == ["t"] && "t" in w.snapshot.tasks && "b2" !in w.minted;
    steps := StrandingRun.TwoMore(cfg, posted, Crash, Boot("b2", 1));
    assert "t" in ["t"];
  }
}
