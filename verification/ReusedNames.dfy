/**
 A sender may name the task and the attempt it asks for, and the duplicate check looks at the
 request only: what a reused name does, and exactly when an insertion is safe from it.
 */
module ReusedNames {
  import opened AtMostOnce
  import opened AttemptDiscipline
  import opened Collections
  import opened DuplicateChecks
  import opened ExecutionJournal
  import opened ResponderState
  import opened ResponderTasks
  import opened ResponderWorld
  import ResultBuilder

  // ------------------------------------------------------------------ a reused task id

  const ONE := TaskEnvelope("m1", Some("T"), None, Some("caller"), None, Some("r1"), None, None, None, 5)
  const OTHER := TaskEnvelope("m2", Some("T"), None, Some("caller"), None, Some("r2"), None, None, None, 5)
  const FOR_ONE := FreshIds("t1", "q1", "a1")
  const FOR_OTHER := FreshIds("t2", "q2", "a2")

  ghost predicate OneQueued(cfg: Config, w: World)
    requires cfg.identity.hotlineIds != []
  {
    && w.process == Up(Volatile("b", w.snapshot, true, [], [], []))
    && w.snapshot == State(map["T" := CreateTask(ONE, cfg.identity, FOR_ONE, 0)], map["r1" := "T"], ["T"], [], 2)
    && w.minted == {"b", "T", "r1", "a1"} && w.journal == [] && w.invoked == [] && w.stale == []
  }

  lemma Booted(cfg: Config)
    ensures var w := Next(cfg, InitialWorld(2), Boot("b", 2));
            && w.process == Up(Volatile("b", EmptyState(2), true, [], [], [])) && w.minted == {"b"}
            && w.journal == [] && w.invoked == [] && w.stale == []
  {
  }

  lemma PostedOne(cfg: Config, w: World)
    requires cfg.identity.hotlineIds != [] && w.process == Up(Volatile("b", EmptyState(2), true, [], [], []))
    requires w.minted == {"b"} && w.journal == [] && w.invoked == [] && w.stale == []
    ensures OneQueued(cfg, Next(cfg, w, HttpAccept(ONE, FOR_ONE, 0, true)))
  {
    EnqueueFirst(CreateTask(ONE, cfg.identity, FOR_ONE, 0), 2);
    InsertionEffect(cfg, w, HttpAccept(ONE, FOR_ONE, 0, true));
  }

  lemma FirstPosted(cfg: Config) returns (steps: seq<Step>)
    requires cfg.identity.hotlineIds != []
    ensures forall step :: step in steps ==> step.Boot? || (step.HttpAccept? && step.env == ONE)
    ensures OneQueued(cfg, Execute(cfg, InitialWorld(2), steps))
  {
    var w0, boot, post := InitialWorld(2), Boot("b", 2), HttpAccept(ONE, FOR_ONE, 0, true);
    Booted(cfg);
    ExecuteSnoc(cfg, w0, [], boot);
    PostedOne(cfg, Next(cfg, w0, boot));
    ExecuteSnoc(cfg, w0, [] + [boot], post);
    steps := [] + [boot] + [post];
  }

  lemma SecondPosted(cfg: Config, w: World) returns (step: Step)
    requires cfg.identity.hotlineIds != [] && OneQueued(cfg, w)
    ensures step == HttpAccept(OTHER, FOR_OTHER, 0, true)
    ensures var w' := Next(cfg, w, step); BothQueued(w', "T", "T", "r2") && w'.stale == []
  {
    step := HttpAccept(OTHER, FOR_OTHER, 0, true);
    assert !Duplicate(w.process.v.state, OTHER);
    InsertionEffect(cfg, w, step);
    EnqueueSecond(w.process.v.state, CreateTask(OTHER, cfg.identity, FOR_OTHER, 0), "T");
  }

  /**
   Two different requests that name one task id: the later replaces the earlier in the table and
   is executed twice, the earlier never, with no crash, no superseded row and no stale check.
   */
  lemma ReusedTaskIdRunsTwice(cfg: Config) returns (steps: seq<Step>)
    requires cfg.identity.hotlineIds != []
    ensures forall step :: step in steps ==> !step.Crash? && (step.HttpAccept? ==> step.env == ONE || step.env == OTHER)
    ensures var w := Execute(cfg, InitialWorld(2), steps);
            w.invoked == ["r2", "r2"] && SupersededRows(w, "r2") == 0 && w.stale == []
  {
    var posted := BothPosted(cfg);
    steps := RunBoth(cfg, posted, "T", "T", "r2");
  }

  lemma BothPosted(cfg: Config) returns (steps: seq<Step>)
    requires cfg.identity.hotlineIds != []
    ensures forall step :: step in steps ==> step.Boot? || (step.HttpAccept? && (step.env == ONE || step.env == OTHER))
    ensures var w := Execute(cfg, InitialWorld(2), steps); BothQueued(w, "T", "T", "r2") && w.stale == []
  {
    var posted := FirstPosted(cfg);
    var second := SecondPosted(cfg, Execute(cfg, InitialWorld(2), posted));
    ExecuteSnoc(cfg, InitialWorld(2), posted, second);
    steps := posted + [second];
  }

  // -------------------------------------------------------- exactly when names are safe

  /** Every task of the table is the one its request leads to. */
  ghost predicate Indexed(s: State) {
    forall id :: id in s.tasks ==> s.tasks[id].requestId in s.requestIndex && s.requestIndex[s.tasks[id].requestId] == id
  }

  ghost predicate WorldIndexed(w: World) {
    Indexed(w.snapshot) && (w.process.Up? ==> Indexed(w.process.v.state))
  }

  lemma DecisionKeepsIndexed(s: State, e: Entry, d: Decision, newAttempt: Id)
    requires Indexed(s) && WellFormed(s)
    ensures Indexed(AfterDecision(s, e, d, newAttempt))
  {
  }

  lemma InsertKeepsIndexed(w: World, step: Step, t: Task)
    requires w.process.Up? && WorldIndexed(w) && WellFormed(w.process.v.state)
    requires step.Accept? || step.Reject? ==> step.k < |w.process.v.held|
    requires t.taskId !in w.process.v.state.tasks && t.requestId !in w.process.v.state.requestIndex
    ensures WorldIndexed(DoInsert(w, step, t))
  {
  }

  lemma StartKeepsIndexed(cfg: Config, s: State)
    requires Indexed(s) && s.queue != []
    ensures Indexed(StartHead(cfg, s))
  {
  }

  lemma UpdateKeepsIndexed(s: State, id: Id, t: Task)
    requires Indexed(s) && id in s.tasks && t.requestId == s.tasks[id].requestId
    ensures Indexed(s.(tasks := s.tasks[id := t]))
  {
  }

  lemma WorkKeepsIndexed(cfg: Config, w: World, step: Step)
    requires WorldIndexed(w) && Sound(w) && Enabled(cfg, w, step) && (step.Start? || step.Finish?)
    ensures WorldIndexed(Next(cfg, w, step))
  {
    var v := w.process.v;
    if step.Start? {
      StartKeepsIndexed(cfg, v.state);
    } else if Current(v.state, v.runs[step.i]) {
      var r := v.runs[step.i];
      UpdateKeepsIndexed(v.state, r.taskId, ResultBuilder.FinishTask(cfg.signer, v.state.tasks[r.taskId], step.execution));
    }
  }

  lemma StepKeepsIndexed(cfg: Config, w: World, step: Step)
    requires WorldIndexed(w) && Sound(w) && NamesFreshTask(cfg, w, step)
    requires var t := NewTask(cfg, w, step); t.Some? ==> t.value.requestId !in w.process.v.state.requestIndex
    ensures WorldIndexed(Next(cfg, w, step))
  {
    if Enabled(cfg, w, step) {
      match step
      case Accept(_, _, _, _) => InsertKeepsIndexed(w, step, NewTask(cfg, w, step).value);
      case Reject(_, _, _, _) => InsertKeepsIndexed(w, step, NewTask(cfg, w, step).value);
      case HttpAccept(_, _, _, _) => InsertKeepsIndexed(w, step, NewTask(cfg, w, step).value);
      case Start(_, _) => WorkKeepsIndexed(cfg, w, step);
      case Finish(_, _) => WorkKeepsIndexed(cfg, w, step);
      case Reconcile(answer, newAttempt, _) =>
        var v := w.process.v;
        DecisionKeepsIndexed(v.state, v.pending[0], Decide(cfg, v.state, v.pending[0], answer), newAttempt);
      case _ =>
    }
  }

  lemma {:induction false} CarefulRunsAreIndexed(cfg: Config, workers: int, steps: seq<Step>)
    requires Throughout(cfg, InitialWorld(workers), steps, Careful(cfg))
    ensures var w := Execute(cfg, InitialWorld(workers), steps); WorldIndexed(w) && Sound(w) && Budget(w, "") && Unclaimed(w)
    decreases |steps|
  {
    ThroughoutWeaker(cfg, InitialWorld(workers), steps, Careful(cfg), Fresh(cfg));
    RunKeepsBudget(cfg, workers, steps, "");
    NoStaleChecks(cfg, workers, steps);
    if steps != [] {
      var init, last := steps[..|steps| - 1], steps[|steps| - 1];
      CarefulRunsAreIndexed(cfg, workers, init);
      var w := Execute(cfg, InitialWorld(workers), init);
      if NewTask(cfg, w, last).Some? {
        InsertsUnknown(cfg, w, last, "");
      }
      StepKeepsIndexed(cfg, w, last);
    }
  }

  lemma ReplacementBreaksIndex(s: State, t: Task, s': State)
    requires WellFormed(s) && Indexed(s) && t.requestId !in s.requestIndex && t.taskId in s.tasks
    requires s'.tasks == s.tasks[t.taskId := t] && s'.requestIndex == s.requestIndex[t.requestId := t.taskId]
    ensures !WellFormed(s')
  {
    var c := s.tasks[t.taskId].requestId;
    assert c in s'.requestIndex && s'.requestIndex[c] == t.taskId && s'.tasks[t.taskId].requestId == t.requestId;
  }

  /**
   Checkable before the insertion, and exact: every request still leads to its own task afterwards
   if and only if the inserted task id was not in the table.
   */
  lemma {:induction false} RequestsKeepTheirTasksExactlyWhen(cfg: Config, workers: int, steps: seq<Step>, step: Step)
    requires Throughout(cfg, InitialWorld(workers), steps, Careful(cfg))
    requires NewTask(cfg, Execute(cfg, InitialWorld(workers), steps), step).Some?
    ensures var w := Execute(cfg, InitialWorld(workers), steps);
            WellFormed(Next(cfg, w, step).process.v.state) <==> NamesFreshTask(cfg, w, step)
  {
    var w := Execute(cfg, InitialWorld(workers), steps);
    CarefulRunsAreIndexed(cfg, workers, steps);
    InsertsUnknown(cfg, w, step, "");
    InsertionEffect(cfg, w, step);
    var v, t := w.process.v, NewTask(cfg, w, step).value;
    if NamesFreshTask(cfg, w, step) {
      StepKeepsBudget(cfg, w, step, "");
    } else {
      ReplacementBreaksIndex(v.state, t, Next(cfg, w, step).process.v.state);
    }
  }

  /** A queue without repetitions stays without exactly when the task is not in it yet. */
  lemma QueueStaysDistinctExactlyWhen(s: State, t: Task)
    requires NoDuplicates(s.queue)
    ensures NoDuplicates(Enqueue(s, t).queue) <==> t.taskId !in s.queue
  {
    var tasks, pushed := Remember(s, t).tasks, s.queue + [t.taskId];
    if t.taskId !in s.queue {
      PushUnique(s.queue, t.taskId);
      SortUniqueIds(tasks, pushed);
    } else {
      SortTally(Is(t.taskId), tasks, pushed);
      TallySnoc(Is(t.taskId), s.queue, t.taskId);
      OccursOnce(s.queue, t.taskId);
      if NoDuplicates(Enqueue(s, t).queue) {
        OccursOnce(Enqueue(s, t).queue, t.taskId);
      }
    }
  }

  // --------------------------------------------------------------- a reused attempt id

  /** Queueing a task keeps its attempt unique exactly when the attempt was neither started nor waiting. */
  lemma AttemptStaysUniqueExactlyWhen(journal: seq<Entry>, s: State, t: Task)
    requires AttemptOnce(journal, s, t.attemptId) && t.taskId !in s.tasks && AllKnown(s.tasks, s.queue)
    ensures AttemptOnce(journal, Enqueue(s, t), t.attemptId) <==> AttemptUnused(journal, s, t.attemptId)
  {
    var r := Remember(s, t);
    SortTally(HasAttempt(r.tasks, t.attemptId), r.tasks, s.queue + [t.taskId]);
    TallySnoc(HasAttempt(r.tasks, t.attemptId), s.queue, t.taskId);
    AttemptUntouched(s.tasks, t.taskId, t, s.queue, t.attemptId);
  }

  /** When two calls start under one attempt id, the terminal row of either closes both: the other is never found open again. */
  lemma SharedAttemptClosesBoth(journal: seq<Entry>, later: seq<Entry>, row: Entry, other: Entry, excludeBoot: Option<Id>)
    requires row.entryType.Terminal? && row.attemptId == other.attemptId && row.callId != other.callId
    requires other.entryType.Started? && other in journal
    ensures other !in Interrupted(journal + [row] + later, excludeBoot)
  {
    ClosedSnoc(journal, row, other.attemptId);
    ClosedStaysClosed(journal + [row], later, excludeBoot, other);
  }
}
