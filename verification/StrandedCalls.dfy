/** Calls the responder has lost: what that state is, and that no continuation gets a call out of it. */
module StrandedCalls {
  import opened AtMostOnce
  import opened AttemptDiscipline
  import opened Collections
  import opened DuplicateChecks
  import opened ExecutionJournal
  import opened ResponderState
  import opened ResponderTasks
  import opened ResponderWorld
  import ResultBuilder

  /** The process dies, after an optional save, and a new one boots. */
  function Restarted(cfg: Config, w: World, saved: bool, bootId: Id, workers: int): World {
    var w' := if saved then Next(cfg, w, Save) else w;
    Next(cfg, Next(cfg, w', Crash), Boot(bootId, workers))
  }

  lemma RestartedWorld(cfg: Config, w: World, saved: bool, bootId: Id, workers: int)
    requires w.process.Up? && bootId != "" && bootId !in w.minted
    ensures var w' := Restarted(cfg, w, saved, bootId, workers);
            && w'.process.Up? && w'.journal == w.journal && w'.process.v.bootId == bootId && w'.process.v.runs == []
            && w'.process.v.pending == [] && w'.process.v.held == [] && w'.minted == w.minted + {bootId}
            && w'.snapshot == (if saved then w.process.v.state else w.snapshot)
            && w'.process.v.state == Hydrated(w'.snapshot, workers)
  {
  }

  lemma HydrationQueues(snapshot: State, workers: int, c: Id)
    ensures QueuedTimes(Hydrated(snapshot, workers), c) == QueuedTimes(snapshot, c)
  {
  }

  /** A call that is known, and neither queued, running, open, nor about to be inserted or reconciled. */
  ghost predicate Stranded(w: World, c: Id) {
    && SoundState(w.snapshot, w.minted) && c in w.snapshot.requestIndex && QueuedTimes(w.snapshot, c) == 0
    && OpenAttempts(w.journal, c) == 0
    && (w.process.Up? ==> StrandedIn(w.process.v, w.minted, c))
  }

  ghost predicate StrandedIn(v: Volatile, minted: set<Id>, c: Id) {
    && SoundState(v.state, minted) && c in v.state.requestIndex && QueuedTimes(v.state, c) == 0
    && (forall r :: r in v.runs ==> r.callId != c)
    && (forall e :: e in v.pending ==> e.callId != c)
    && (forall h :: h in v.held && c != "" ==> !ChecksFor(h, c))
  }

  /** Right after a boot the snapshot and the journal decide. */
  lemma StrandedOnBoot(w: World, workers: int, c: Id)
    requires w.process.Up? && w.process.v.runs == [] && w.process.v.pending == [] && w.process.v.held == []
    requires w.process.v.state == Hydrated(w.snapshot, workers)
    ensures Stranded(w, c) <==> SoundState(w.snapshot, w.minted) && c in w.snapshot.requestIndex
                                && QueuedTimes(w.snapshot, c) == 0 && OpenAttempts(w.journal, c) == 0
  {
    HydrationQueues(w.snapshot, workers, c);
  }

  // --------------------------------------------------------------------- stranded for good

  lemma InsertionStaysClear(cfg: Config, w: World, step: Step, c: Id)
    requires Stranded(w, c) && NewTask(cfg, w, step).Some?
    ensures NewTask(cfg, w, step).value.requestId != c
  {
    if step.HttpAccept? {
      if step.env.requestId == Some(c) {
        CheckedIsUnknown(w.process.v.state, step.env, c);
      }
    } else {
      assert w.process.v.held[step.k] in w.process.v.held;
    }
  }

  lemma WaitingChecks(held: seq<Held>, k: nat, callId: Id, h: Held, c: Id)
    requires k < |held| && h in Waiting(held, k, callId) && ChecksFor(h, c)
    ensures h in held
  {
    var j :| 0 <= j < |held| && Waiting(held, k, callId)[j] == h;
    assert held[j] == h;
  }

  lemma InsertedStateClear(s: State, s': State, t: Task, minted: set<Id>, c: Id)
    requires SoundState(s, minted) && c in s.requestIndex && QueuedTimes(s, c) == 0 && t.requestId != c && t.taskId !in s.tasks
    requires s' == Remember(s, t) || s' == Enqueue(s, t)
    ensures SoundState(s', minted + {t.taskId, t.requestId, t.attemptId}) && c in s'.requestIndex && QueuedTimes(s', c) == 0
  {
    RememberKeeps(s, t, c);
    EnqueueCounts(s, t, c);
    assert s'.requestIndex == s.requestIndex[t.requestId := t.taskId] && s'.tasks == s.tasks[t.taskId := t];
  }

  lemma InsertedHeldClear(v: Volatile, step: Step, t: Task, h: Held, c: Id)
    requires (step.Accept? || step.Reject? ==> step.k < |v.held|) && h in Inserting(v, step, t).held && ChecksFor(h, c)
    ensures h in v.held
  {
    if step.Accept? || step.Reject? {
      WaitingChecks(v.held, step.k, t.requestId, h, c);
    }
  }

  lemma InsertedStaysClear(v: Volatile, step: Step, t: Task, minted: set<Id>, c: Id)
    requires StrandedIn(v, minted, c) && t.requestId != c && t.taskId !in v.state.tasks
    requires (step.Accept? || step.Reject? ==> step.k < |v.held|)
    ensures StrandedIn(Inserting(v, step, t), minted + {t.taskId, t.requestId, t.attemptId}, c)
  {
    var v' := Inserting(v, step, t);
    InsertedStateClear(v.state, v'.state, t, minted, c);
    forall h | h in v'.held && c != "" ensures !ChecksFor(h, c) {
      if ChecksFor(h, c) {
        InsertedHeldClear(v, step, t, h, c);
      }
    }
  }

  lemma InsertionStaysStranded(w: World, step: Step, t: Task, c: Id)
    requires Stranded(w, c) && w.process.Up? && t.requestId != c && t.taskId !in w.process.v.state.tasks
    requires (step.Accept? || step.Reject? ==> step.k < |w.process.v.held|)
    ensures Stranded(DoInsert(w, step, t), c)
  {
    var more := w.minted + {t.taskId, t.requestId, t.attemptId};
    InsertedStaysClear(w.process.v, step, t, w.minted, c);
    ContinueStaysStranded(Noted(w, w.process.v.state, t), Inserting(w.process.v, step, t), SavesAtOnce(step), c);
  }

  lemma SavedRunsCalls(runs: seq<Run>, c: Id)
    requires forall r :: r in runs ==> r.callId != c
    ensures forall r :: r in SavedRuns(runs) ==> r.callId != c
  {
    forall r | r in SavedRuns(runs) ensures r.callId != c {
      var i :| 0 <= i < |runs| && SavedRuns(runs)[i] == r;
      assert runs[i] in runs;
    }
  }

  lemma SavedHeldsCheck(held: seq<Held>, c: Id)
    requires forall h :: h in held ==> !ChecksFor(h, c)
    ensures forall h :: h in SavedHelds(held) ==> !ChecksFor(h, c)
  {
    forall h | h in SavedHelds(held) ensures !ChecksFor(h, c) {
      var k :| 0 <= k < |held| && SavedHelds(held)[k] == h;
      assert held[k] in held;
    }
  }

  lemma SaveStaysStranded(w: World, v: Volatile, c: Id)
    requires StrandedIn(v, w.minted, c) && OpenAttempts(w.journal, c) == 0
    ensures Stranded(SaveNow(w, v), c)
  {
    SavedRunsCalls(v.runs, c);
    if c != "" {
      SavedHeldsCheck(v.held, c);
    }
  }

  lemma StartedStaysClear(cfg: Config, v: Volatile, minted: set<Id>, c: Id)
    requires StrandedIn(v, minted, c) && v.state.queue != []
    ensures v.state.queue[0] in v.state.tasks && v.state.tasks[v.state.queue[0]].requestId != c
    ensures var t := v.state.tasks[v.state.queue[0]];
            StrandedIn(v.(state := StartHead(cfg, v.state), runs := v.runs + [Run(v.state.queue[0], t.requestId, t, Unsaved)]), minted, c)
  {
    StartCounts(cfg, v.state, c);
  }

  lemma StartedWorld(cfg: Config, w: World, step: Step)
    requires step.Start? && Enabled(cfg, w, step) && w.process.v.state.queue[0] in w.process.v.state.tasks
    ensures var v := w.process.v;
            var t := v.state.tasks[v.state.queue[0]];
            Next(cfg, w, step) == Continue(w.(journal := w.journal + (if step.appended then [StartEntry(cfg, v.bootId, t)] else [])),
                                           v.(state := StartHead(cfg, v.state), runs := v.runs + [Run(v.state.queue[0], t.requestId, t, Unsaved)]),
                                           step.saved)
  {
  }

  lemma ContinueStaysStranded(w: World, v: Volatile, saved: bool, c: Id)
    requires StrandedIn(v, w.minted, c) && Stranded(w.(process := Down), c)
    ensures Stranded(Continue(w, v, saved), c)
  {
    if saved {
      SaveStaysStranded(w, v, c);
    }
  }

  lemma OtherStartOpensNothing(journal: seq<Entry>, row: Entry, appended: bool, c: Id)
    requires OpenAttempts(journal, c) == 0 && row.entryType.Started? && row.callId != c
    ensures OpenAttempts(journal + (if appended then [row] else []), c) == 0
  {
    StartRowCounts(journal, row, row.attemptId, c);
    assert journal + [] == journal;
  }

  lemma StartStaysStranded(cfg: Config, w: World, step: Step, c: Id)
    requires Stranded(w, c) && step.Start? && Enabled(cfg, w, step)
    ensures Stranded(Next(cfg, w, step), c)
  {
    var v := w.process.v;
    StartedStaysClear(cfg, v, w.minted, c);
    StartedWorld(cfg, w, step);
    var t := v.state.tasks[v.state.queue[0]];
    var row := StartEntry(cfg, v.bootId, t);
    OtherStartOpensNothing(w.journal, row, step.appended, c);
    ContinueStaysStranded(w.(journal := w.journal + (if step.appended then [row] else [])),
                          v.(state := StartHead(cfg, v.state), runs := v.runs + [Run(v.state.queue[0], t.requestId, t, Unsaved)]), step.saved, c);
  }

  /** The terminal row of another call closes nothing of this one, and opens nothing. */
  lemma RecordStaysStranded(w: World, i: nat, row: Entry, appended: bool, c: Id)
    requires Stranded(w, c) && w.process.Up? && i < |w.process.v.runs| && row.entryType.Terminal?
    ensures Stranded(w.(journal := w.journal + (if appended then [row] else []), process := Up(AtPhase(w.process.v, i, RowWritten))), c)
  {
    var journal := w.journal + (if appended then [row] else []);
    ClosingRowCounts(w.journal, row, row.attemptId, c);
    assert w.journal + [] == w.journal;
    assert Stranded(w.(journal := journal), c);
    PhaseStaysStranded(w.(journal := journal), i, RowWritten, c);
  }

  lemma RunsKeepCalls(runs: seq<Run>, runs': seq<Run>, c: Id)
    requires |runs'| == |runs| && forall i :: 0 <= i < |runs| ==> runs'[i].callId == runs[i].callId
    requires forall r :: r in runs ==> r.callId != c
    ensures forall r :: r in runs' ==> r.callId != c
  {
    forall r | r in runs' ensures r.callId != c {
      var i :| 0 <= i < |runs'| && runs'[i] == r;
      assert runs[i] in runs;
    }
  }

  lemma FinishedRunsClear(cfg: Config, v: Volatile, i: nat, execution: ResultBuilder.Execution, c: Id)
    requires i < |v.runs| && forall r :: r in v.runs ==> r.callId != c
    ensures forall r :: r in DoFinish(cfg, v, i, execution).runs ==> r.callId != c
  {
    RunsKeepCalls(v.runs, DoFinish(cfg, v, i, execution).runs, c);
  }

  lemma UpdatedStateClear(s: State, id: Id, t: Task, minted: set<Id>, c: Id)
    requires SoundState(s, minted) && c in s.requestIndex && QueuedTimes(s, c) == 0
    requires id in s.tasks && t.taskId == id && t.requestId == s.tasks[id].requestId
    ensures var s' := s.(tasks := s.tasks[id := t]); SoundState(s', minted) && c in s'.requestIndex && QueuedTimes(s', c) == 0
  {
    UpdateCounts(s, id, t, c);
  }

  lemma FinishedStateClear(cfg: Config, v: Volatile, i: nat, execution: ResultBuilder.Execution, minted: set<Id>, c: Id)
    requires i < |v.runs| && SoundState(v.state, minted) && c in v.state.requestIndex && QueuedTimes(v.state, c) == 0
    ensures var s := DoFinish(cfg, v, i, execution).state; SoundState(s, minted) && c in s.requestIndex && QueuedTimes(s, c) == 0
  {
    var r := v.runs[i];
    if Current(v.state, r) {
      UpdatedStateClear(v.state, r.taskId, ResultBuilder.FinishTask(cfg.signer, v.state.tasks[r.taskId], execution), minted, c);
    }
  }

  lemma FinishStaysStranded(cfg: Config, w: World, i: nat, execution: ResultBuilder.Execution, c: Id)
    requires Stranded(w, c) && w.process.Up? && i < |w.process.v.runs|
    ensures Stranded(w.(process := Up(DoFinish(cfg, w.process.v, i, execution))), c)
  {
    FinishedRunsClear(cfg, w.process.v, i, execution, c);
    FinishedStateClear(cfg, w.process.v, i, execution, w.minted, c);
  }

  lemma DecisionStaysClear(v: Volatile, minted: set<Id>, d: Decision, newAttempt: Id, ordered: bool, c: Id)
    requires StrandedIn(v, minted, c) && v.pending != []
    ensures StrandedIn(v.(state := AfterDecision(v.state, v.pending[0], d, newAttempt), ordered := ordered, pending := v.pending[1..]),
                       minted + {newAttempt}, c)
  {
    assert v.pending[0] in v.pending;
    DecisionCounts(v.state, v.pending[0], d, newAttempt, c);
  }

  lemma ReconcileStaysStranded(cfg: Config, w: World, answer: Answer, newAttempt: Id, appended: bool, c: Id)
    requires Stranded(w, c) && w.process.Up? && w.process.v.pending != []
    ensures Stranded(DoReconcile(cfg, w, w.process.v, answer, newAttempt, appended), c)
  {
    var v := w.process.v;
    var e := v.pending[0];
    var d := Decide(cfg, v.state, e, answer);
    DecisionStaysClear(v, w.minted, d, newAttempt, v.ordered && !d.Rerun?, c);
    DecisionOpensNothing(w.journal, v.bootId, e, d, appended, c);
  }

  lemma DecisionOpensNothing(journal: seq<Entry>, bootId: Id, e: Entry, d: Decision, appended: bool, c: Id)
    requires OpenAttempts(journal, c) == 0
    ensures OpenAttempts(journal + (if appended then DecisionEntries(bootId, e, d) else []), c) == 0
  {
    assert journal + [] == journal;
    if !d.Unreported? {
      ClosingRowCounts(journal, DecisionEntries(bootId, e, d)[0], "", c);
    }
  }

  lemma BeginStaysStranded(w: World, c: Id)
    requires Stranded(w, c) && w.process.Up?
    ensures Stranded(w.(process := Up(w.process.v.(pending := Interrupted(w.journal, Some(w.process.v.bootId))))), c)
  {
    FilterMembers(IsInterrupted(w.journal, Some(w.process.v.bootId)), w.journal);
    TallyZero(OpenFor(w.journal, c), w.journal);
  }

  lemma PhaseStaysStranded(w: World, i: nat, phase: Phase, c: Id)
    requires Stranded(w, c) && w.process.Up? && i < |w.process.v.runs|
    ensures Stranded(w.(process := Up(AtPhase(w.process.v, i, phase))), c)
  {
    RunsKeepCalls(w.process.v.runs, AtPhase(w.process.v, i, phase).runs, c);
  }

  lemma HeldStaysStranded(w: World, held: seq<Held>, c: Id)
    requires Stranded(w, c) && w.process.Up? && forall h :: h in held && c != "" ==> h in w.process.v.held || !ChecksFor(h, c)
    ensures Stranded(w.(process := Up(w.process.v.(held := held))), c)
  {
  }

  lemma DropStaysStranded(w: World, i: nat, active: seq<Id>, c: Id)
    requires Stranded(w, c) && w.process.Up? && i < |w.process.v.runs|
    ensures var v := w.process.v;
            Stranded(w.(process := Up(v.(state := v.state.(active := active), runs := v.runs[..i] + v.runs[i + 1..]))), c)
  {
    assert QueuedTimes(w.process.v.state.(active := active), c) == QueuedTimes(w.process.v.state, c);
  }

  lemma BootStaysStranded(w: World, bootId: Id, workers: int, c: Id)
    requires Stranded(w, c)
    ensures Stranded(w.(minted := w.minted + {bootId},
                        process := Up(Volatile(bootId, Hydrated(w.snapshot, workers), w.snapshotOrdered, [], [], []))), c)
  {
    HydrationQueues(w.snapshot, workers, c);
  }

  /** A pass takes up only envelopes whose request is unknown, and this one is known. */
  lemma CheckStaysStranded(w: World, env: TaskEnvelope, c: Id)
    requires Stranded(w, c) && w.process.Up? && !Duplicate(w.process.v.state, env)
    ensures Stranded(w.(process := Up(w.process.v.(held := w.process.v.held + [Held(env, "", Checked)]))), c)
  {
    if env.requestId == Some(c) {
      CheckedIsUnknown(w.process.v.state, env, c);
    }
    HeldStaysStranded(w, w.process.v.held + [Held(env, "", Checked)], c);
  }

  lemma NeverInvoked(cfg: Config, w: World, step: Step, c: Id)
    requires Stranded(w, c)
    ensures Invocations(Next(cfg, w, step), c) == Invocations(w, c)
  {
    OnlyInvokeInvokes(cfg, w, step);
    if step.Invoke? && Enabled(cfg, w, step) {
      assert w.process.v.runs[step.i] in w.process.v.runs;
      TallySnoc(Is(c), w.invoked, w.process.v.runs[step.i].callId);
    }
  }

  /** What the process does with one of its runs. */
  lemma RunMoveStaysStranded(cfg: Config, w: World, step: Step, c: Id)
    requires Stranded(w, c) && Enabled(cfg, w, step)
    requires step.Invoke? || step.Finish? || step.Send? || step.Record?
    ensures Stranded(Next(cfg, w, step), c)
  {
    var v := w.process.v;
    match step
    case Invoke(i) => PhaseStaysStranded(w, i, Invoked, c);
    case Finish(i, execution) => FinishStaysStranded(cfg, w, i, execution, c);
    case Send(i) => PhaseStaysStranded(w, i, ResultSent, c);
    case Record(i, appended) => RecordStaysStranded(w, i, TerminalEntry(v.bootId, RecordOf(v.state, v.runs[i])), appended, c);
  }

  /** Starts, ends of runs, and what it does with its pending list. */
  lemma WorkStaysStranded(cfg: Config, w: World, step: Step, c: Id)
    requires Stranded(w, c) && Enabled(cfg, w, step)
    requires step.Start? || step.LoseRun? || step.Retire? || step.BeginReconcile? || step.Reconcile?
    ensures Stranded(Next(cfg, w, step), c)
  {
    var v := w.process.v;
    match step
    case Start(_, _) => StartStaysStranded(cfg, w, step, c);
    case LoseRun(i) => DropStaysStranded(w, i, v.state.active, c);
    case Retire(i) => DropStaysStranded(w, i, Retired(v.state, v.runs[i].taskId).active, c);
    case BeginReconcile => BeginStaysStranded(w, c);
    case Reconcile(answer, newAttempt, appended) => ReconcileStaysStranded(cfg, w, answer, newAttempt, appended, c);
  }

  lemma SettledStaysStranded(cfg: Config, w: World, step: Step, c: Id)
    requires Stranded(w, c) && Enabled(cfg, w, step) && (step.Deduplicate? || step.AckHeld?)
    ensures Stranded(Next(cfg, w, step), c)
  {
    var held := w.process.v.held;
    HeldStaysStranded(w, if step.Deduplicate? then held + [Held(step.env, step.env.requestId.value, Cleared)] else held[..step.k] + held[step.k + 1..], c);
  }

  /** What an inbox pass does short of an insertion. */
  lemma PassStaysStranded(cfg: Config, w: World, step: Step, c: Id)
    requires Stranded(w, c) && Enabled(cfg, w, step) && (step.Check? || step.Deduplicate? || step.AckHeld?)
    ensures Stranded(Next(cfg, w, step), c)
  {
    if step.Check? {
      CheckStaysStranded(w, step.env, c);
    } else {
      SettledStaysStranded(cfg, w, step, c);
    }
  }

  /** What happens to the inbox from outside, and to the process itself. */
  lemma ProcessStaysStranded(cfg: Config, w: World, step: Step, c: Id)
    requires Stranded(w, c) && Enabled(cfg, w, step) && (step.Deliver? || step.Crash? || step.Boot? || step.Save?)
    ensures Stranded(Next(cfg, w, step), c)
  {
    match step
    case Deliver(_) =>
    case Crash =>
    case Boot(bootId, workers) => BootStaysStranded(w, bootId, workers, c);
    case Save => SaveStaysStranded(w, w.process.v, c);
  }

  lemma StepStaysStranded(cfg: Config, w: World, step: Step, c: Id)
    requires Stranded(w, c) && NamesFreshTask(cfg, w, step)
    ensures Stranded(Next(cfg, w, step), c)
  {
    if step.Accept? || step.Reject? || step.HttpAccept? {
      if Enabled(cfg, w, step) {
        InsertionStaysClear(cfg, w, step, c);
        InsertionEffect(cfg, w, step);
        InsertionStaysStranded(w, step, NewTask(cfg, w, step).value, c);
      }
    } else if Enabled(cfg, w, step) {
      if step.Deliver? || step.Crash? || step.Boot? || step.Save? {
        ProcessStaysStranded(cfg, w, step, c);
      } else if step.Check? || step.Deduplicate? || step.AckHeld? {
        PassStaysStranded(cfg, w, step, c);
      } else if step.Invoke? || step.Finish? || step.Send? || step.Record? {
        RunMoveStaysStranded(cfg, w, step, c);
      } else {
        WorkStaysStranded(cfg, w, step, c);
      }
    }
  }

  /** Nothing ever runs or reports a stranded call again: no continuation invokes it, opens it or queues it. */
  lemma {:induction false} StrandedForever(cfg: Config, workers: int, steps: seq<Step>, more: seq<Step>, c: Id)
    requires Throughout(cfg, InitialWorld(workers), steps + more, Fresh(cfg))
    requires Stranded(Execute(cfg, InitialWorld(workers), steps), c)
    ensures var w, w' := Execute(cfg, InitialWorld(workers), steps), Execute(cfg, InitialWorld(workers), steps + more);
            Stranded(w', c) && Invocations(w', c) == Invocations(w, c) && OpenAttempts(w'.journal, c) == 0
    decreases |more|
  {
    if more == [] {
      assert steps + more == steps;
    } else {
      var init, last := more[..|more| - 1], more[|more| - 1];
      LastOfBoth(steps, more);
      ThroughoutSnoc(cfg, InitialWorld(workers), steps + init, last, Fresh(cfg));
      StrandedForever(cfg, workers, steps, init, c);
      OneStepStranded(cfg, InitialWorld(workers), steps + init, last, c);
    }
  }

  lemma LastOfBoth<T>(front: seq<T>, back: seq<T>)
    requires back != []
    ensures front + back == front + back[..|back| - 1] + [back[|back| - 1]]
  {
  }

  lemma OneStepStranded(cfg: Config, w0: World, steps: seq<Step>, step: Step, c: Id)
    requires Throughout(cfg, w0, steps + [step], Fresh(cfg)) && Stranded(Execute(cfg, w0, steps), c)
    ensures Stranded(Execute(cfg, w0, steps + [step]), c)
    ensures Invocations(Execute(cfg, w0, steps + [step]), c) == Invocations(Execute(cfg, w0, steps), c)
  {
    ExecuteSnoc(cfg, w0, steps, step);
    ThroughoutSnoc(cfg, w0, steps, step, Fresh(cfg));
    StaysStranded(cfg, Execute(cfg, w0, steps), step, c);
  }

  lemma StaysStranded(cfg: Config, w: World, step: Step, c: Id)
    requires Stranded(w, c) && Fresh(cfg)(w, step)
    ensures Stranded(Next(cfg, w, step), c) && Invocations(Next(cfg, w, step), c) == Invocations(w, c)
  {
    StepStaysStranded(cfg, w, step, c);
    NeverInvoked(cfg, w, step, c);
  }
}
