/**
 The duplicate check and the insertion it guards are separated by awaits: when that is harmless,
 what follows for executions, and what two overlapping passes do to one call.
 */
module DuplicateChecks {
  import opened AtMostOnce
  import opened Collections
  import opened ExecutionJournal
  import opened ResponderState
  import opened ResponderTasks
  import opened ResponderWorld
  import opened Results
  import ResultBuilder

  // ------------------------------------------------------------- undisturbed insertions

  /** What a pass has checked and not yet inserted is still unknown. */
  ghost predicate Unclaimed(w: World) {
    w.process.Up? ==> forall h, c :: h in w.process.v.held && ChecksFor(h, c) && c != "" ==>
      c !in w.process.v.state.requestIndex
  }

  lemma CheckedIsUnknown(s: State, env: TaskEnvelope, c: Id)
    requires WellFormed(s) && !Duplicate(s, env) && env.requestId == Some(c)
    ensures c !in s.requestIndex
  {
  }

  /** An insertion no other pass waits behind finds its call unknown, whether the sender or the supply named it. */
  lemma InsertsUnknown(cfg: Config, w: World, step: Step, c: Id)
    requires Budget(w, c) && Unclaimed(w) && NewTask(cfg, w, step).Some?
    ensures NewTask(cfg, w, step).value.requestId !in w.process.v.state.requestIndex
  {
    if step.HttpAccept? {
      if Given(step.env.requestId) {
        CheckedIsUnknown(w.process.v.state, step.env, step.env.requestId.value);
      }
    } else {
      var h := w.process.v.held[step.k];
      if Given(h.env.requestId) {
        assert h in w.process.v.held && ChecksFor(h, h.env.requestId.value);
      }
    }
  }

  lemma InsertionKeepsUnclaimed(cfg: Config, w: World, step: Step)
    requires Unclaimed(w) && NewTask(cfg, w, step).Some? && Undisturbed(cfg, w, step)
    ensures Unclaimed(Next(cfg, w, step))
  {
    var v, t := w.process.v, NewTask(cfg, w, step).value;
    var v' := Next(cfg, w, step).process.v;
    InsertionEffect(cfg, w, step);
    assert v'.state.requestIndex == v.state.requestIndex[t.requestId := t.taskId];
    forall h, x | h in v'.held && ChecksFor(h, x) && x != "" ensures x !in v'.state.requestIndex {
      InsertionHolds(cfg, w, step, h);
      assert h in v.held;
    }
  }

  lemma StepKeepsUnclaimed(cfg: Config, w: World, step: Step, c: Id)
    requires Budget(w, c) && Unclaimed(w) && Undisturbed(cfg, w, step)
    ensures Unclaimed(Next(cfg, w, step)) && Next(cfg, w, step).stale == w.stale
  {
    if NewTask(cfg, w, step).Some? {
      InsertsUnknown(cfg, w, step, c);
      InsertionKeepsUnclaimed(cfg, w, step);
      InsertionEffect(cfg, w, step);
      assert w.stale + [] == w.stale;
    } else if Enabled(cfg, w, step) {
      IndexKept(cfg, w, step);
      StaleKept(cfg, w, step);
      if !step.Boot? {
        CheckedBefore(cfg, w, step);
      }
      if step.Check? && step.env.requestId.Some? {
        CheckedIsUnknown(w.process.v.state, step.env, step.env.requestId.value);
      }
    }
  }

  /** Only insertions touch the index, and only a boot replaces it, with nothing held. */
  lemma IndexKept(cfg: Config, w: World, step: Step)
    requires Enabled(cfg, w, step) && NewTask(cfg, w, step).None?
    ensures Next(cfg, w, step).process.Up? ==>
              if step.Boot? then Next(cfg, w, step).process.v.held == []
              else w.process.Up? && Next(cfg, w, step).process.v.state.requestIndex == w.process.v.state.requestIndex
  {
    if step.Start? || step.Finish? || step.Retire? || step.Reconcile? {
      WorkKeepsIndex(cfg, w, step);
    } else if !step.Boot? {
      OthersKeepIndex(cfg, w, step);
    }
  }

  lemma OthersKeepIndex(cfg: Config, w: World, step: Step)
    requires Enabled(cfg, w, step) && NewTask(cfg, w, step).None?
    requires !step.Boot? && !step.Start? && !step.Finish? && !step.Retire? && !step.Reconcile?
    ensures Next(cfg, w, step).process.Up? ==> w.process.Up? && Next(cfg, w, step).process.v.state == w.process.v.state
  {
  }

  lemma WorkKeepsIndex(cfg: Config, w: World, step: Step)
    requires Enabled(cfg, w, step) && (step.Start? || step.Finish? || step.Retire? || step.Reconcile?)
    ensures Next(cfg, w, step).process.Up? && Next(cfg, w, step).process.v.state.requestIndex == w.process.v.state.requestIndex
  {
    if step.Reconcile? {
      var v := w.process.v;
      DecisionKeepsIndex(v.state, v.pending[0], Decide(cfg, v.state, v.pending[0], step.answer), step.newAttempt);
    } else if step.Finish? {
      FinishKeepsIndex(cfg, w.process.v, step.i, step.execution);
    }
  }

  lemma DecisionKeepsIndex(s: State, e: Entry, d: Decision, newAttempt: Id)
    ensures AfterDecision(s, e, d, newAttempt).requestIndex == s.requestIndex
  {
  }

  lemma FinishKeepsIndex(cfg: Config, v: Volatile, i: nat, execution: ResultBuilder.Execution)
    requires i < |v.runs|
    ensures DoFinish(cfg, v, i, execution).state.requestIndex == v.state.requestIndex
  {
  }

  lemma StaleKept(cfg: Config, w: World, step: Step)
    requires NewTask(cfg, w, step).None?
    ensures Next(cfg, w, step).stale == w.stale
  {
  }

  /** Only a check adds a checked envelope. */
  lemma CheckedBefore(cfg: Config, w: World, step: Step)
    requires Enabled(cfg, w, step) && NewTask(cfg, w, step).None? && !step.Boot?
    ensures var w' := Next(cfg, w, step);
            w'.process.Up? ==> w.process.Up? && forall h :: h in w'.process.v.held && h.stage == Checked ==>
              h in w.process.v.held || (step.Check? && h == Held(step.env, "", Checked))
  {
    if step.Save? {
      SavingChecksNothing(w.process.v.held);
    } else {
      OthersCheckNothing(cfg, w, step);
    }
  }

  lemma SavingChecksNothing(held: seq<Held>)
    ensures forall h :: h in SavedHelds(held) && h.stage == Checked ==> h in held
  {
    forall h | h in SavedHelds(held) && h.stage == Checked ensures h in held {
      var j :| 0 <= j < |held| && SavedHelds(held)[j] == h;
      assert held[j] == h;
    }
  }

  lemma OthersCheckNothing(cfg: Config, w: World, step: Step)
    requires Enabled(cfg, w, step) && NewTask(cfg, w, step).None? && !step.Boot? && !step.Save?
    ensures var w' := Next(cfg, w, step);
            w'.process.Up? ==> w.process.Up? && forall h :: h in w'.process.v.held && h.stage == Checked ==>
              h in w.process.v.held || (step.Check? && h == Held(step.env, "", Checked))
  {
  }

  /** Where no other insertion of a call falls between a pass's check of it and its insertion, no check is stale. */
  lemma {:induction false} NoStaleChecks(cfg: Config, workers: int, steps: seq<Step>)
    requires Throughout(cfg, InitialWorld(workers), steps, Careful(cfg))
    ensures Execute(cfg, InitialWorld(workers), steps).stale == [] && Unclaimed(Execute(cfg, InitialWorld(workers), steps))
    decreases |steps|
  {
    if steps != [] {
      var init := steps[..|steps| - 1];
      NoStaleChecks(cfg, workers, init);
      ThroughoutWeaker(cfg, InitialWorld(workers), init, Careful(cfg), Fresh(cfg));
      RunKeepsBudget(cfg, workers, init, "");
      StepKeepsUnclaimed(cfg, Execute(cfg, InitialWorld(workers), init), steps[|steps| - 1], "");
    }
  }

  // ------------------------------------------------------------- exactly when it is safe

  /** Some pass still holds, checked, the call a step has just inserted. */
  ghost predicate Overtaken(w: World, k: nat, c: Id) {
    Holds(w, k, Checked) && ChecksFor(w.process.v.held[k], c)
  }

  lemma OthersStayHeld(cfg: Config, w: World, step: Step, j: nat)
    requires NewTask(cfg, w, step).Some? && j < |w.process.v.held| && w.process.v.held[j].stage == Checked
    requires (step.Accept? || step.Reject?) ==> step.k != j
    ensures Holds(Next(cfg, w, step), j, Checked) && Next(cfg, w, step).process.v.held[j] == w.process.v.held[j]
  {
    InsertionEffect(cfg, w, step);
    var held := Inserting(w.process.v, step, NewTask(cfg, w, step).value).held;
    assert Next(cfg, w, step).process.v.held == if SavesAtOnce(step) then SavedHelds(held) else held;
    assert held[j] == w.process.v.held[j];
  }

  /** An overtaken pass goes on to insert its call a second time, and no check stops it. */
  lemma OvertakenIsStale(cfg: Config, w: World, k: nat, c: Id, ids: FreshIds)
    requires Overtaken(w, k, c) && c != "" && c in w.process.v.state.requestIndex && CanInsert(cfg, w, ids)
    ensures Next(cfg, w, Accept(k, ids, 0, false)).stale == w.stale + [c]
  {
    InsertionEffect(cfg, w, Accept(k, ids, 0, false));
  }

  function Letters(n: nat): Id {
    seq(n, i => 'x')
  }

  lemma LengthBound(names: set<Id>) returns (n: nat)
    ensures forall x :: x in names ==> |x| < n
    decreases |names|
  {
    n := 1;
    if names != {} {
      var x :| x in names;
      var m := LengthBound(names - {x});
      n := if |x| < m then m else |x| + 1;
    }
  }

  /** The supply never runs dry. */
  lemma SupplyLasts(minted: set<Id>) returns (ids: FreshIds)
    ensures Unused(minted, ids)
  {
    var n := LengthBound(minted);
    ids := FreshIds(Letters(n + 1), Letters(n + 2), Letters(n + 3));
    assert |ids.taskId| == n + 1 && |ids.requestId| == n + 2 && |ids.attemptId| == n + 3;
  }

  /** No way to go on from here inserts a request that is known by then. */
  ghost predicate NextIsSafe(cfg: Config, w: World) {
    forall step :: Next(cfg, w, step).stale == w.stale
  }

  /** A pass that was overtaken can insert its call next, although it is known by now. */
  ghost predicate ComesStale(cfg: Config, w: World, c: Id) {
    exists k: nat, ids: FreshIds :: Overtaken(w, k, c) && Next(cfg, w, Accept(k, ids, 0, false)).stale == w.stale + [c]
  }

  lemma UnclaimedIsSafe(cfg: Config, w: World, step: Step)
    requires Unclaimed(w) && w.process.Up? && w.process.v.state.requestIndex.Keys <= w.minted
    requires forall c :: c in w.process.v.state.requestIndex ==> w.process.v.state.requestIndex[c] in w.process.v.state.tasks
    ensures Next(cfg, w, step).stale == w.stale
  {
    if NewTask(cfg, w, step).Some? {
      InsertionEffect(cfg, w, step);
      var env := if step.HttpAccept? then step.env else w.process.v.held[step.k].env;
      if Given(env.requestId) && !step.HttpAccept? {
        assert ChecksFor(w.process.v.held[step.k], env.requestId.value) && w.process.v.held[step.k] in w.process.v.held;
      }
      assert w.stale + [] == w.stale;
    } else {
      StaleKept(cfg, w, step);
    }
  }

  lemma InsertionKeepsIndexKnown(cfg: Config, w: World, step: Step)
    requires NewTask(cfg, w, step).Some? && SoundState(w.process.v.state, w.minted)
    ensures var w' := Next(cfg, w, step);
            && w'.process.Up? && w'.process.v.state.requestIndex.Keys <= w'.minted
            && NewTask(cfg, w, step).value.requestId in w'.process.v.state.requestIndex
            && forall c :: c in w'.process.v.state.requestIndex ==> w'.process.v.state.requestIndex[c] in w'.process.v.state.tasks
  {
    InsertionEffect(cfg, w, step);
  }

  lemma DisturbedComesStale(cfg: Config, w: World, step: Step)
    requires NewTask(cfg, w, step).Some? && !Undisturbed(cfg, w, step) && SoundState(w.process.v.state, w.minted)
    ensures var c, w' := NewTask(cfg, w, step).value.requestId, Next(cfg, w, step);
            ComesStale(cfg, w', c) && c != "" && w'.process.Up? && c in w'.process.v.state.requestIndex
  {
    var c, w' := NewTask(cfg, w, step).value.requestId, Next(cfg, w, step);
    var j :| 0 <= j < |w.process.v.held| && ChecksFor(w.process.v.held[j], c) && !((step.Accept? || step.Reject?) && step.k == j);
    OthersStayHeld(cfg, w, step, j);
    InsertionKeepsIndexKnown(cfg, w, step);
    var ids := SupplyLasts(w'.minted);
    OvertakenIsStale(cfg, w', j, c, ids);
  }

  lemma StaleIsUnsafe(cfg: Config, w: World, c: Id)
    requires ComesStale(cfg, w, c) && c != "" && w.process.Up? && c in w.process.v.state.requestIndex
    ensures !NextIsSafe(cfg, w) && !Unclaimed(w)
  {
    var k: nat, ids: FreshIds :| Overtaken(w, k, c) && Next(cfg, w, Accept(k, ids, 0, false)).stale == w.stale + [c];
    assert w.process.v.held[k] in w.process.v.held && |w.stale + [c]| != |w.stale|;
  }

  lemma UndisturbedIsSafe(cfg: Config, w: World, step: Step)
    requires NewTask(cfg, w, step).Some? && Undisturbed(cfg, w, step) && SoundState(w.process.v.state, w.minted) && Unclaimed(w)
    ensures Unclaimed(Next(cfg, w, step)) && NextIsSafe(cfg, Next(cfg, w, step))
  {
    var w' := Next(cfg, w, step);
    InsertionKeepsUnclaimed(cfg, w, step);
    InsertionKeepsIndexKnown(cfg, w, step);
    forall next ensures Next(cfg, w', next).stale == w'.stale {
      UnclaimedIsSafe(cfg, w', next);
    }
  }

  lemma InsertionIsNotStale(cfg: Config, w: World, step: Step)
    requires NewTask(cfg, w, step).Some? && NewTask(cfg, w, step).value.requestId !in w.process.v.state.requestIndex
    ensures Next(cfg, w, step).stale == w.stale
  {
    InsertionEffect(cfg, w, step);
    assert w.stale + [] == w.stale;
  }

  lemma SafetyDecided(cfg: Config, w: World, step: Step)
    requires NewTask(cfg, w, step).Some? && SoundState(w.process.v.state, w.minted) && Unclaimed(w)
    ensures var c, w' := NewTask(cfg, w, step).value.requestId, Next(cfg, w, step);
            && (NextIsSafe(cfg, w') <==> Undisturbed(cfg, w, step))
            && (Unclaimed(w') <==> Undisturbed(cfg, w, step))
            && (!Undisturbed(cfg, w, step) ==> ComesStale(cfg, w', c))
  {
    if Undisturbed(cfg, w, step) {
      UndisturbedIsSafe(cfg, w, step);
    } else {
      DisturbedComesStale(cfg, w, step);
      StaleIsUnsafe(cfg, Next(cfg, w, step), NewTask(cfg, w, step).value.requestId);
    }
  }

  /**
   Exact, and checkable before the insertion: after a careful run it is safe to go on in every way
   if and only if no other pass holds the inserted call checked. If one does, it can insert the call
   a second time right away.
   */
  lemma {:induction false} InsertionIsSafeExactlyWhen(cfg: Config, workers: int, steps: seq<Step>, step: Step)
    requires Throughout(cfg, InitialWorld(workers), steps, Careful(cfg))
    requires NewTask(cfg, Execute(cfg, InitialWorld(workers), steps), step).Some?
    ensures var w := Execute(cfg, InitialWorld(workers), steps);
            var c, w' := NewTask(cfg, w, step).value.requestId, Next(cfg, w, step);
            && w'.stale == []
            && (NextIsSafe(cfg, w') <==> Undisturbed(cfg, w, step))
            && (Unclaimed(w') <==> Undisturbed(cfg, w, step))
            && (!Undisturbed(cfg, w, step) ==> ComesStale(cfg, w', c))
  {
    NoStaleChecks(cfg, workers, steps);
    ThroughoutWeaker(cfg, InitialWorld(workers), steps, Careful(cfg), Fresh(cfg));
    RunKeepsBudget(cfg, workers, steps, "");
    InsertsUnknown(cfg, Execute(cfg, InitialWorld(workers), steps), step, "");
    InsertionIsNotStale(cfg, Execute(cfg, InitialWorld(workers), steps), step);
    SafetyDecided(cfg, Execute(cfg, InitialWorld(workers), steps), step);
  }

  // --------------------------------------------------------------- one pass at a time

  /** Passes do not overlap, and no task posted directly names the request a pass has just checked. */
  predicate OnePass(cfg: Config, w: World, step: Step) {
    && (Enabled(cfg, w, step) && (step.Check? || step.Deduplicate?) ==> w.process.v.held == [])
    && (step.HttpAccept? ==> Undisturbed(cfg, w, step))
  }

  function Sequential(cfg: Config): Rule {
    (w: World, step: Step) => NamesFreshTask(cfg, w, step) && OnePass(cfg, w, step)
  }

  lemma {:induction false} OneHeldAtMost(cfg: Config, workers: int, steps: seq<Step>)
    requires Throughout(cfg, InitialWorld(workers), steps, Sequential(cfg))
    ensures var w := Execute(cfg, InitialWorld(workers), steps); w.process.Up? ==> |w.process.v.held| <= 1
    decreases |steps|
  {
    if steps != [] {
      OneHeldAtMost(cfg, workers, steps[..|steps| - 1]);
      HeldGrowsByCheck(cfg, Execute(cfg, InitialWorld(workers), steps[..|steps| - 1]), steps[|steps| - 1]);
    }
  }

  lemma HeldGrowsByCheck(cfg: Config, w: World, step: Step)
    requires OnePass(cfg, w, step) && (w.process.Up? ==> |w.process.v.held| <= 1)
    ensures Next(cfg, w, step).process.Up? ==> |Next(cfg, w, step).process.v.held| <= 1
  {
    if NewTask(cfg, w, step).Some? {
      InsertionHoldsAsMany(cfg, w, step);
    } else {
      OtherStepsHoldNoMore(cfg, w, step);
    }
  }

  lemma InsertionHoldsAsMany(cfg: Config, w: World, step: Step)
    requires NewTask(cfg, w, step).Some?
    ensures |Next(cfg, w, step).process.v.held| == |w.process.v.held|
  {
    InsertionEffect(cfg, w, step);
    assert |Inserting(w.process.v, step, NewTask(cfg, w, step).value).held| == |w.process.v.held|;
  }

  lemma OtherStepsHoldNoMore(cfg: Config, w: World, step: Step)
    requires NewTask(cfg, w, step).None?
    ensures var w' := Next(cfg, w, step);
            w'.process.Up? ==>
              if w.process.Up? then |w'.process.v.held| <= |w.process.v.held| + (if Enabled(cfg, w, step) && (step.Check? || step.Deduplicate?) then 1 else 0)
              else w'.process.v.held == []
  {
  }

  /** Non-overlapping passes leave every insertion undisturbed. */
  lemma {:induction false} OnePassIsCareful(cfg: Config, workers: int, steps: seq<Step>)
    requires Throughout(cfg, InitialWorld(workers), steps, Sequential(cfg))
    ensures Throughout(cfg, InitialWorld(workers), steps, Careful(cfg))
    decreases |steps|
  {
    if steps != [] {
      OnePassIsCareful(cfg, workers, steps[..|steps| - 1]);
      OneHeldAtMost(cfg, workers, steps[..|steps| - 1]);
    }
  }

  // ----------------------------------------------------------------------- executions

  /**
   Never silently re-run: a call whose recorded class allows no re-run is executed at most once
   ever, however often the process dies and whatever the journal loses.
   */
  lemma {:induction false} UnrecoverableExecutesAtMostOnce(cfg: Config, workers: int, steps: seq<Step>, c: Id)
    requires Throughout(cfg, InitialWorld(workers), steps, Careful(cfg))
    requires forall e :: e in Execute(cfg, InitialWorld(workers), steps).journal && e.entryType.Started? && e.callId == c ==>
               !RerunAllowed(cfg, e.recoverability)
    ensures Invocations(Execute(cfg, InitialWorld(workers), steps), c) <= 1
  {
    var w := Execute(cfg, InitialWorld(workers), steps);
    ThroughoutWeaker(cfg, InitialWorld(workers), steps, Careful(cfg), Fresh(cfg));
    InvocationsBounded(cfg, workers, steps, c);
    NoStaleChecks(cfg, workers, steps);
    RunKeepsJustified(cfg, workers, steps);
    forall e | e in w.journal && e.entryType.Superseded? ensures e.callId != c {
      var s :| s in w.journal && s.entryType.Started? && s.callId == e.callId && s.attemptId == e.attemptId
               && s.recoverability == e.recoverability;
      assert RerunAllowed(cfg, s.recoverability);
    }
    TallyZero(SupersedesCall(c), w.journal);
    assert !StartedRerunnable(cfg, w.journal, c);
    TallyZero(Is(c), w.lost);
  }

  // --------------------------------------------------------------- two passes, one envelope

  const REQUEST := TaskEnvelope("m", None, None, Some("caller"), None, Some("req"), None, None, None, 5)
  const FIRST := FreshIds("t1", "r1", "a1")
  const SECOND := FreshIds("t2", "r2", "a2")

  /** Two passes polled the same envelope, and both found its request unknown. */
  lemma BothChecked(cfg: Config) returns (steps: seq<Step>)
    requires cfg.identity.hotlineIds != []
    ensures forall step :: step in steps ==> step.Deliver? || step.Boot? || step.Check?
    ensures forall step :: step in steps && step.Deliver? ==> step.env == REQUEST
    ensures var w := Execute(cfg, InitialWorld(2), steps);
            && w.process == Up(Volatile("b", EmptyState(2), true, [], [], [Held(REQUEST, "", Checked), Held(REQUEST, "", Checked)]))
            && w.minted == {"b"} && w.journal == [] && w.invoked == []
  {
    var w0 := InitialWorld(2);
    steps := [] + [Deliver(REQUEST)];
    ExecuteSnoc(cfg, w0, [], Deliver(REQUEST));
    ExecuteSnoc(cfg, w0, steps, Boot("b", 2));
    steps := steps + [Boot("b", 2)];
    var w := Execute(cfg, w0, steps);
    assert w.inbox == [REQUEST] && w.process == Up(Volatile("b", EmptyState(2), true, [], [], []));
    ExecuteSnoc(cfg, w0, steps, Check(REQUEST));
    steps := steps + [Check(REQUEST)];
    w := Execute(cfg, w0, steps);
    assert w.inbox == [REQUEST] && w.process == Up(Volatile("b", EmptyState(2), true, [], [], [] + [Held(REQUEST, "", Checked)]));
    ExecuteSnoc(cfg, w0, steps, Check(REQUEST));
    steps := steps + [Check(REQUEST)];
  }

  ghost predicate OneInserted(cfg: Config, w: World)
    requires cfg.identity.hotlineIds != []
  {
    && w.process.Up? && w.process.v.runs == [] && |w.process.v.held| == 2 && w.process.v.held[1] == Held(REQUEST, "", Checked)
    && w.process.v.state.queue == ["t1"] && w.process.v.state.active == [] && w.process.v.state.workers == 2
    && w.process.v.state.tasks == map["t1" := CreateTask(REQUEST, cfg.identity, FIRST, 0)]
    && w.minted == {"b", "t1", "req", "a1"} && w.journal == [] && w.invoked == []
  }

  lemma FirstInserted(cfg: Config, w: World) returns (w': World, step: Step)
    requires cfg.identity.hotlineIds != []
    requires w.process == Up(Volatile("b", EmptyState(2), true, [], [], [Held(REQUEST, "", Checked), Held(REQUEST, "", Checked)]))
    requires w.minted == {"b"} && w.journal == [] && w.invoked == []
    ensures step.Accept? && w' == Next(cfg, w, step) && OneInserted(cfg, w')
  {
    step := Accept(0, FIRST, 0, true);
    w' := Next(cfg, w, step);
    InsertionEffect(cfg, w, step);
    EnqueueFirst(CreateTask(REQUEST, cfg.identity, FIRST, 0), 2);
  }

  lemma TwoInOrder(tasks: map<Id, Task>, a: Id, b: Id)
    requires a in tasks && b in tasks && tasks[a].priority == tasks[b].priority && tasks[a].enqueuedAt == tasks[b].enqueuedAt
    ensures StableSort(tasks, [a]) == [a] && StableSort(tasks, [a, b]) == [a, b]
  {
    assert [a][..0] == [] && [a, b][..1] == [a];
  }

  lemma EnqueueFirst(t: Task, workers: int)
    ensures Enqueue(EmptyState(workers), t) == State(map[t.taskId := t], map[t.requestId := t.taskId], [t.taskId], [], workers)
  {
    TwoInOrder(map[t.taskId := t], t.taskId, t.taskId);
    assert [] + [t.taskId] == [t.taskId];
  }

  lemma EnqueueSecond(s: State, t: Task, first: Id)
    requires s.queue == [first] && (first == t.taskId || first in s.tasks)
    requires first != t.taskId ==> s.tasks[first].priority == t.priority && s.tasks[first].enqueuedAt == t.enqueuedAt
    ensures Enqueue(s, t).queue == [first, t.taskId]
  {
    TwoInOrder(s.tasks[t.taskId := t], first, t.taskId);
    assert [first] + [t.taskId] == [first, t.taskId];
  }

  /** Two queued tasks of one call, about to be started by two workers. */
  ghost predicate BothQueued(w: World, a: Id, b: Id, c: Id) {
    && w.process.Up? && w.process.v.runs == [] && w.process.v.state.active == [] && w.process.v.state.workers == 2
    && w.process.v.state.queue == [a, b] && a in w.process.v.state.tasks && b in w.process.v.state.tasks
    && w.process.v.state.tasks[a].requestId == c && w.process.v.state.tasks[b].requestId == c
    && w.journal == [] && w.invoked == []
  }

  lemma SecondInserted(cfg: Config, w: World) returns (w': World, step: Step)
    requires cfg.identity.hotlineIds != [] && OneInserted(cfg, w)
    ensures step.Accept? && w' == Next(cfg, w, step) && BothQueued(w', "t1", "t2", "req")
  {
    step := Accept(1, SECOND, 0, true);
    w' := Next(cfg, w, step);
    InsertionEffect(cfg, w, step);
    EnqueueSecond(w.process.v.state, CreateTask(REQUEST, cfg.identity, SECOND, 0), "t1");
  }

  lemma BothStarted(cfg: Config, w: World, a: Id, b: Id, c: Id) returns (w1: World, w2: World, step: Step)
    requires BothQueued(w, a, b, c)
    ensures step.Start? && w1 == Next(cfg, w, step) && w2 == Next(cfg, w1, step)
    ensures w2.process.Up? && |w2.process.v.runs| == 2 && InPhase(w2, 0, {Ready}) && InPhase(w2, 1, {Ready})
    ensures w2.process.v.runs[0].callId == c && w2.process.v.runs[1].callId == c
    ensures w2.stale == w.stale
    ensures w2.invoked == [] && forall e :: e in w2.journal ==> e.entryType.Started?
  {
    step := Start(true, true);
    w1 := Next(cfg, w, step);
    assert w1.process.v.state.queue == [b] && |w1.process.v.state.active| == 1 && w1.process.v.state.workers == 2;
    assert w1.process.v.state.tasks[b].requestId == c;
    w2 := Next(cfg, w1, step);
  }

  lemma BothInvoked(cfg: Config, w: World, c: Id) returns (w1: World, w2: World)
    requires w.process.Up? && |w.process.v.runs| == 2 && InPhase(w, 0, {Ready}) && InPhase(w, 1, {Ready})
    requires w.process.v.runs[0].callId == c && w.process.v.runs[1].callId == c && w.invoked == []
    ensures w1 == Next(cfg, w, Invoke(0)) && w2 == Next(cfg, w1, Invoke(1)) && w2.invoked == [c, c] && w2.journal == w.journal && w2.stale == w.stale
  {
    w1 := OneInvoked(cfg, w, 0);
    w2 := OneInvoked(cfg, w1, 1);
    assert [] + [c] + [c] == [c, c];
  }

  lemma OneInvoked(cfg: Config, w: World, i: nat) returns (w': World)
    requires w.process.Up? && i < |w.process.v.runs| && InPhase(w, i, {Ready})
    ensures w' == Next(cfg, w, Invoke(i)) && w'.process.Up? && |w'.process.v.runs| == |w.process.v.runs|
    ensures forall j :: 0 <= j < |w.process.v.runs| && j != i ==> w'.process.v.runs[j] == w.process.v.runs[j]
    ensures w'.invoked == w.invoked + [w.process.v.runs[i].callId] && w'.journal == w.journal && w'.stale == w.stale
  {
    w' := Next(cfg, w, Invoke(i));
  }

  /** The common end of both runs: two tasks of one call in the queue make two invocations. */
  lemma RunBoth(cfg: Config, steps: seq<Step>, a: Id, b: Id, c: Id) returns (all: seq<Step>)
    requires BothQueued(Execute(cfg, InitialWorld(2), steps), a, b, c)
    ensures steps <= all && forall step :: step in all ==> step in steps || step.Start? || step.Invoke?
    ensures var w := Execute(cfg, InitialWorld(2), all); w.invoked == [c, c] && SupersededRows(w, c) == 0
    ensures Execute(cfg, InitialWorld(2), all).stale == Execute(cfg, InitialWorld(2), steps).stale
  {
    var w0 := InitialWorld(2);
    var w1, w2, start := BothStarted(cfg, Execute(cfg, w0, steps), a, b, c);
    ExecuteSnoc(cfg, w0, steps, start);
    ExecuteSnoc(cfg, w0, steps + [start], start);
    var w3, w4 := BothInvoked(cfg, w2, c);
    all := steps + [start] + [start];
    ExecuteSnoc(cfg, w0, all, Invoke(0));
    ExecuteSnoc(cfg, w0, all + [Invoke(0)], Invoke(1));
    all := all + [Invoke(0)] + [Invoke(1)];
    TallyZero(SupersedesCall(c), w4.journal);
  }

  /** Two overlapping passes over one delivered envelope: no crash, no superseded row, and two invocations for one call. */
  lemma OverlappingPassesRunTwice(cfg: Config) returns (steps: seq<Step>)
    requires cfg.identity.hotlineIds != []
    ensures forall step :: step in steps ==> !step.Crash? && !step.HttpAccept? && (step.Deliver? ==> step.env == REQUEST)
    ensures var w := Execute(cfg, InitialWorld(2), steps); w.invoked == ["req", "req"] && SupersededRows(w, "req") == 0
  {
    var checked := BothChecked(cfg);
    var inserted := BothInserted(cfg, checked);
    steps := RunBoth(cfg, inserted, "t1", "t2", "req");
  }

  lemma BothInserted(cfg: Config, checked: seq<Step>) returns (steps: seq<Step>)
    requires cfg.identity.hotlineIds != []
    requires var w := Execute(cfg, InitialWorld(2), checked);
             && w.process == Up(Volatile("b", EmptyState(2), true, [], [], [Held(REQUEST, "", Checked), Held(REQUEST, "", Checked)]))
             && w.minted == {"b"} && w.journal == [] && w.invoked == []
    ensures forall step :: step in steps ==> step in checked || step.Accept?
    ensures BothQueued(Execute(cfg, InitialWorld(2), steps), "t1", "t2", "req")
  {
    var w2, first := FirstInserted(cfg, Execute(cfg, InitialWorld(2), checked));
    ExecuteSnoc(cfg, InitialWorld(2), checked, first);
    var w3, second := SecondInserted(cfg, w2);
    ExecuteSnoc(cfg, InitialWorld(2), checked + [first], second);
    steps := checked + [first] + [second];
  }
}
