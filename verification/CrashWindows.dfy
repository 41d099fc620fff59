/**
 The three places where a crash between two writes matters, each as an exact condition: the good
 outcome holds if and only if the second write happened first.
 */
module CrashWindows {
  import opened AtMostOnce
  import opened AttemptDiscipline
  import opened CalmRuns
  import opened Collections
  import opened ExecutionJournal
  import opened ResponderState
  import opened ResponderTasks
  import opened ResponderWorld
  import opened StrandedCalls
  import ResultBuilder

  lemma Requeued(s: State, e: Entry, newAttempt: Id)
    requires WellFormed(s) && QueuedTimes(s, e.callId) == 0 && e.callId in s.requestIndex
    ensures QueuedTimes(AfterDecision(s, e, Rerun, newAttempt), e.callId) >= 1
  {
    var id := s.requestIndex[e.callId];
    NotQueued(s, e.callId, id);
    var s1 := AfterDecision(s, e, Rerun, newAttempt);
    TallySnoc(ForCall(s1.tasks, e.callId), s.queue, id);
  }

  /** After the superseded row: nothing of the call is open or in the snapshot, and it is queued in memory. */
  lemma RerunMoves(journal: seq<Entry>, snapshot: State, s: State, minted: set<Id>, e: Entry, bootId: Id, newAttempt: Id)
    requires StateOk(journal, snapshot, minted) && StateOk(journal, s, minted) && JournalOk(journal, minted) && newAttempt !in minted
    requires e in journal && e.entryType.Started? && !ClosedIn(journal, e.attemptId)
    ensures OpenAttempts(journal + [SupersededEntry(bootId, e)], e.callId) == 0 && QueuedTimes(snapshot, e.callId) == 0
    ensures QueuedTimes(AfterDecision(s, e, Rerun, newAttempt), e.callId) >= 1
  {
    OpenIsCounted(journal, snapshot, minted, e);
    OpenIsCounted(journal, s, minted, e);
    ClosingOpenCounts(journal, SupersededEntry(bootId, e), e);
    Requeued(s, e, newAttempt);
  }

  /**
   A re-run closes the old attempt in the journal before the queue that holds its successor is
   saved. A crash in between strands the call; one after the save does not.
   */
  lemma {:induction false} SupersededSurvivesIffSaved(cfg: Config, workers: int, steps: seq<Step>, answer: Answer, newAttempt: Id,
                                                      saved: bool, bootId: Id)
    requires Calm(cfg, InitialWorld(workers), steps)
    requires var w := Execute(cfg, InitialWorld(workers), steps);
             && Enabled(cfg, w, Reconcile(answer, newAttempt, true)) && bootId != "" && bootId !in w.minted + {newAttempt}
             && Decide(cfg, w.process.v.state, w.process.v.pending[0], answer).Rerun?
    ensures var w := Execute(cfg, InitialWorld(workers), steps);
            var e := w.process.v.pending[0];
            var w' := Restarted(cfg, Next(cfg, w, Reconcile(answer, newAttempt, true)), saved, bootId, workers);
            && (Stranded(w', e.callId) <==> !saved)
            && (saved ==> QueuedTimes(w'.process.v.state, e.callId) >= 1)
  {
    var w := Execute(cfg, InitialWorld(workers), steps);
    CalmRunsDisciplined(cfg, workers, steps);
    CalmIsCareful(cfg, InitialWorld(workers), steps);
    RunKeepsBudget(cfg, workers, steps, "");
    RerunCrash(cfg, w, answer, newAttempt, saved, bootId, workers);
  }

  lemma {:induction false} RerunCrash(cfg: Config, w: World, answer: Answer, newAttempt: Id, saved: bool, bootId: Id, workers: int)
    requires Disciplined(w) && Sound(w) && Enabled(cfg, w, Reconcile(answer, newAttempt, true))
    requires Decide(cfg, w.process.v.state, w.process.v.pending[0], answer).Rerun?
    requires bootId != "" && bootId !in w.minted + {newAttempt}
    ensures var e := w.process.v.pending[0];
            var w' := Restarted(cfg, Next(cfg, w, Reconcile(answer, newAttempt, true)), saved, bootId, workers);
            && (Stranded(w', e.callId) <==> !saved)
            && (saved ==> QueuedTimes(w'.process.v.state, e.callId) >= 1)
  {
    var e := w.process.v.pending[0];
    var w1 := Next(cfg, w, Reconcile(answer, newAttempt, true));
    ReconciledWorld(cfg, w, answer, newAttempt);
    RerunLeaves(w, e, newAttempt);
    RestartedWorld(cfg, w1, saved, bootId, workers);
    AfterRestart(Restarted(cfg, w1, saved, bootId, workers), w1, w, saved, workers, e.callId);
  }

  /** Before the crash: the snapshot knows the call and does not queue it, the journal holds nothing of it open, memory queues it. */
  lemma RerunLeaves(w: World, e: Entry, newAttempt: Id)
    requires Disciplined(w) && Sound(w) && w.process.Up? && w.process.v.pending != [] && e == w.process.v.pending[0] && newAttempt !in w.minted
    ensures OpenAttempts(w.journal + [SupersededEntry(w.process.v.bootId, e)], e.callId) == 0
    ensures QueuedTimes(w.snapshot, e.callId) == 0 && e.callId in w.snapshot.requestIndex
    ensures QueuedTimes(AfterDecision(w.process.v.state, e, Rerun, newAttempt), e.callId) >= 1
  {
    var v := w.process.v;
    assert e in v.pending;
    RerunMoves(w.journal, w.snapshot, v.state, w.minted, e, v.bootId, newAttempt);
    OpenIsCounted(w.journal, w.snapshot, w.minted, e);
  }

  lemma AfterRestart(w': World, w1: World, w: World, saved: bool, workers: int, c: Id)
    requires w'.process.Up? && w'.process.v.runs == [] && w'.process.v.pending == [] && w'.process.v.held == []
    requires w'.process.v.state == Hydrated(w'.snapshot, workers) && w'.journal == w1.journal && w.minted <= w'.minted
    requires w1.process.Up? && w'.snapshot == (if saved then w1.process.v.state else w.snapshot)
    requires SoundState(w.snapshot, w.minted) && OpenAttempts(w1.journal, c) == 0
    requires QueuedTimes(w.snapshot, c) == 0 && c in w.snapshot.requestIndex && QueuedTimes(w1.process.v.state, c) >= 1
    ensures (Stranded(w', c) <==> !saved) && (saved ==> QueuedTimes(w'.process.v.state, c) >= 1)
  {
    StrandedOnBoot(w', workers, c);
    HydrationQueues(w'.snapshot, workers, c);
  }

  lemma ReconciledWorld(cfg: Config, w: World, answer: Answer, newAttempt: Id)
    requires Enabled(cfg, w, Reconcile(answer, newAttempt, true))
    requires Decide(cfg, w.process.v.state, w.process.v.pending[0], answer).Rerun?
    ensures var v, w' := w.process.v, Next(cfg, w, Reconcile(answer, newAttempt, true));
            && w'.process.Up? && w'.snapshot == w.snapshot && w'.minted == w.minted + {newAttempt}
            && w'.journal == w.journal + [SupersededEntry(v.bootId, v.pending[0])]
            && w'.process.v.state == AfterDecision(v.state, v.pending[0], Rerun, newAttempt)
  {
  }

  // ------------------------------------------------------------- only started attempts close

  ghost predicate HasStart(journal: seq<Entry>, a: Id) {
    exists s :: s in journal && s.entryType.Started? && s.attemptId == a
  }

  ghost predicate ClosersStarted(journal: seq<Entry>) {
    forall e :: e in journal && !e.entryType.Started? ==> HasStart(journal, e.attemptId)
  }

  lemma NewClosersStarted(cfg: Config, w: World, step: Step, row: Entry)
    requires Disciplined(w) && row in NewRows(cfg, w, step) && !row.entryType.Started?
    ensures HasStart(w.journal, row.attemptId)
  {
  }

  lemma StepKeepsClosers(cfg: Config, w: World, step: Step)
    requires Disciplined(w) && ClosersStarted(w.journal)
    ensures ClosersStarted(Next(cfg, w, step).journal)
  {
    JournalGrows(cfg, w, step);
    var rows := NewRows(cfg, w, step);
    forall e | e in w.journal + rows && !e.entryType.Started? ensures HasStart(w.journal + rows, e.attemptId) {
      if e !in w.journal {
        NewClosersStarted(cfg, w, step, e);
      }
      var s :| s in w.journal && s.entryType.Started? && s.attemptId == e.attemptId;
      assert s in w.journal + rows;
    }
  }

  lemma {:induction false} CalmRunsCloseStarted(cfg: Config, workers: int, steps: seq<Step>)
    requires Calm(cfg, InitialWorld(workers), steps)
    ensures ClosersStarted(Execute(cfg, InitialWorld(workers), steps).journal)
    decreases |steps|
  {
    if steps != [] {
      var init := steps[..|steps| - 1];
      CalmRunsCloseStarted(cfg, workers, init);
      CalmRunsDisciplined(cfg, workers, init);
      StepKeepsClosers(cfg, Execute(cfg, InitialWorld(workers), init), steps[|steps| - 1]);
    }
  }

  /** An attempt still in the queue has no row at all, so none that closes it. */
  lemma QueuedIsUnclosed(journal: seq<Entry>, s: State, minted: set<Id>, id: Id)
    requires StateOk(journal, s, minted) && ClosersStarted(journal) && id in s.queue
    ensures !ClosedIn(journal, s.tasks[id].attemptId)
  {
    var a := s.tasks[id].attemptId;
    assert AttemptOnce(journal, s, a);
    var k :| 0 <= k < |s.queue| && s.queue[k] == id;
    TallyPositive(HasAttempt(s.tasks, a), s.queue, k);
    TallyZero(StartsAttempt(a), journal);
    assert !HasStart(journal, a);
    forall i | 0 <= i < |journal| ensures !Closes(journal[i], a) {
      assert journal[i] in journal;
    }
  }

  /**
   A start row is written before the snapshot forgets that its task was queued. A crash in
   between leaves the attempt both open and queued, to be reported and executed; this is the one
   window the consistency of durable states has to exclude.
   */
  lemma {:induction false} TornStartIsOpenAndQueued(cfg: Config, workers: int, steps: seq<Step>, saved: bool, bootId: Id)
    requires Calm(cfg, InitialWorld(workers), steps)
    requires var w := Execute(cfg, InitialWorld(workers), steps);
             Enabled(cfg, w, Start(true, false)) && w.snapshot == w.process.v.state && bootId != "" && bootId !in w.minted
    ensures var w := Execute(cfg, InitialWorld(workers), steps);
            var id := w.process.v.state.queue[0];
            id in w.process.v.state.tasks &&
            var t := w.process.v.state.tasks[id];
            var w' := Restarted(cfg, Next(cfg, w, Start(true, false)), saved, bootId, workers);
            && StartEntry(cfg, w.process.v.bootId, t) in Interrupted(w'.journal, Some(bootId))
            && (QueuedTimes(w'.process.v.state, t.requestId) >= 1 <==> !saved)
  {
    var w := Execute(cfg, InitialWorld(workers), steps);
    CalmRunsDisciplined(cfg, workers, steps);
    CalmRunsCloseStarted(cfg, workers, steps);
    TornStart(cfg, w, saved, bootId, workers);
  }

  lemma FreshStartIsInterrupted(journal: seq<Entry>, e: Entry, bootId: Id)
    requires e.entryType.Started? && !ClosedIn(journal, e.attemptId) && e.bootId != bootId
    ensures e in Interrupted(journal + [e], Some(bootId))
  {
    ClosedSnoc(journal, e, e.attemptId);
    FilterHolds(IsInterrupted(journal + [e], Some(bootId)), journal + [e], e);
  }

  lemma TornStart(cfg: Config, w: World, saved: bool, bootId: Id, workers: int)
    requires Disciplined(w) && ClosersStarted(w.journal)
    requires Enabled(cfg, w, Start(true, false)) && w.snapshot == w.process.v.state && bootId != "" && bootId !in w.minted
    ensures var id := w.process.v.state.queue[0];
            id in w.process.v.state.tasks &&
            var t := w.process.v.state.tasks[id];
            var w' := Restarted(cfg, Next(cfg, w, Start(true, false)), saved, bootId, workers);
            && StartEntry(cfg, w.process.v.bootId, t) in Interrupted(w'.journal, Some(bootId))
            && (QueuedTimes(w'.process.v.state, t.requestId) >= 1 <==> !saved)
  {
    var v := w.process.v;
    var id := v.state.queue[0];
    assert id in v.state.queue;
    var t := v.state.tasks[id];
    var e := StartEntry(cfg, v.bootId, t);
    var w1 := Next(cfg, w, Start(true, false));
    assert w1.journal == w.journal + [e];
    RestartedWorld(cfg, w1, saved, bootId, workers);
    HydrationQueues(if saved then w1.process.v.state else w.snapshot, workers, t.requestId);
    StartCounts(cfg, v.state, t.requestId);
    assert CallOnce(w.journal, v.state, t.requestId);
    QueuedIsUnclosed(w.journal, v.state, w.minted, id);
    FreshStartIsInterrupted(w.journal, e, bootId);
  }

  // --------------------------------------------------------------------- what was sent

  predicate PastSending(r: Run) {
    r.phase == ResultSent || r.phase == RowWritten
  }

  /** A run past its sending has sent the result of the attempt its record holds. */
  ghost predicate SentIn(v: Volatile, sent: seq<Id>) {
    forall r :: r in v.runs && PastSending(r) ==> RecordOf(v.state, r).attemptId in sent
  }

  ghost predicate ResultsSent(w: World) {
    w.process.Up? ==> SentIn(w.process.v, w.sent)
  }

  /** Every task is still there, under the same call and attempt. */
  predicate AttemptsKept(s: State, s': State) {
    forall id :: id in s.tasks ==> id in s'.tasks && s'.tasks[id].requestId == s.tasks[id].requestId && s'.tasks[id].attemptId == s.tasks[id].attemptId
  }

  /** Runs past their sending were there before, and their records are the same. */
  lemma SentStays(v: Volatile, v': Volatile, sent: seq<Id>)
    requires SentIn(v, sent) && AttemptsKept(v.state, v'.state)
    requires forall r :: r in v.runs ==> Current(v.state, r)
    requires forall r :: r in v'.runs && PastSending(r) ==> r in v.runs
    ensures SentIn(v', sent)
  {
    forall r | r in v'.runs && PastSending(r) ensures RecordOf(v'.state, r).attemptId in sent {
      assert Current(v.state, r) && r in v.runs;
    }
  }

  lemma RunsAreCurrent(w: World)
    requires Disciplined(w) && w.process.Up?
    ensures forall r :: r in w.process.v.runs ==> Current(w.process.v.state, r)
  {
    forall r | r in w.process.v.runs ensures Current(w.process.v.state, r) {
      var i :| 0 <= i < |w.process.v.runs| && w.process.v.runs[i] == r;
      assert RunOk(w.journal, w.process.v, w.process.v.runs[i]);
    }
  }

  lemma SavedRunsSent(runs: seq<Run>, r: Run)
    requires r in SavedRuns(runs) && PastSending(r)
    ensures r in runs
  {
    var i :| 0 <= i < |runs| && SavedRuns(runs)[i] == r;
    assert runs[i] == r;
  }

  lemma InsertionKeepsAttempts(v: Volatile, step: Step, t: Task)
    requires t.taskId !in v.state.tasks && (step.Accept? || step.Reject? ==> step.k < |v.held|)
    ensures AttemptsKept(v.state, Inserting(v, step, t).state)
  {
    assert Inserting(v, step, t).state.tasks == v.state.tasks[t.taskId := t];
  }

  lemma InsertionKeepsSent(cfg: Config, w: World, step: Step)
    requires Disciplined(w) && ResultsSent(w) && NewTask(cfg, w, step).Some? && NamesFreshTask(cfg, w, step)
    ensures ResultsSent(Next(cfg, w, step))
  {
    var v, v' := w.process.v, Next(cfg, w, step).process.v;
    InsertionEffect(cfg, w, step);
    InsertionKeepsAttempts(v, step, NewTask(cfg, w, step).value);
    RunsAreCurrent(w);
    forall r | r in v'.runs && PastSending(r) ensures r in v.runs {
      if SavesAtOnce(step) {
        SavedRunsSent(v.runs, r);
      }
    }
    SentStays(v, v', w.sent);
  }

  lemma SaveKeepsSent(w: World, v: Volatile)
    requires SentIn(v, w.sent) && forall r :: r in v.runs ==> Current(v.state, r)
    ensures ResultsSent(SaveNow(w, v))
  {
    forall r | r in SavedRuns(v.runs) && PastSending(r) ensures r in v.runs {
      SavedRunsSent(v.runs, r);
    }
    SentStays(v, SaveNow(w, v).process.v, w.sent);
  }

  lemma StartKeepsSent(cfg: Config, w: World)
    requires Disciplined(w) && ResultsSent(w) && Enabled(cfg, w, Start(true, true))
    ensures ResultsSent(Next(cfg, w, Start(true, true)))
  {
    var v := w.process.v;
    var id := v.state.queue[0];
    assert id in v.state.queue;
    var v' := v.(state := StartHead(cfg, v.state), runs := v.runs + [Run(id, v.state.tasks[id].requestId, v.state.tasks[id], Unsaved)]);
    RunsAreCurrent(w);
    SentStays(v, v', w.sent);
    forall r | r in v'.runs ensures Current(v'.state, r) {
      assert r in v.runs ==> Current(v.state, r);
    }
    SaveKeepsSent(w.(journal := w.journal + [StartEntry(cfg, v.bootId, v.state.tasks[id])]), v');
  }

  lemma FinishKeepsAttempts(cfg: Config, v: Volatile, i: nat, execution: ResultBuilder.Execution)
    requires i < |v.runs|
    ensures AttemptsKept(v.state, DoFinish(cfg, v, i, execution).state)
  {
  }

  lemma FinishMovesOne(cfg: Config, v: Volatile, i: nat, execution: ResultBuilder.Execution, r: Run)
    requires i < |v.runs| && r in DoFinish(cfg, v, i, execution).runs && PastSending(r)
    ensures r in v.runs
  {
    var runs := DoFinish(cfg, v, i, execution).runs;
    var k :| 0 <= k < |runs| && runs[k] == r;
    assert v.runs[k] == r;
  }

  lemma FinishKeepsSent(cfg: Config, w: World, i: nat, execution: ResultBuilder.Execution)
    requires Disciplined(w) && ResultsSent(w) && Enabled(cfg, w, Finish(i, execution))
    ensures SentIn(DoFinish(cfg, w.process.v, i, execution), w.sent)
  {
    var v := w.process.v;
    var v' := DoFinish(cfg, v, i, execution);
    RunsAreCurrent(w);
    FinishKeepsAttempts(cfg, v, i, execution);
    forall r | r in v'.runs && PastSending(r) ensures r in v.runs {
      FinishMovesOne(cfg, v, i, execution, r);
    }
    SentStays(v, v', w.sent);
  }

  /** Sending puts the attempt on record; the row that follows changes nothing about that. */
  lemma PhaseKeepsSent(w: World, i: nat, phase: Phase, sent: seq<Id>)
    requires Disciplined(w) && ResultsSent(w) && w.process.Up? && i < |w.process.v.runs|
    requires w.sent <= sent && (phase == ResultSent || phase == RowWritten ==> RecordOf(w.process.v.state, w.process.v.runs[i]).attemptId in sent)
    ensures SentIn(AtPhase(w.process.v, i, phase), sent)
  {
    var v := w.process.v;
    var v' := AtPhase(v, i, phase);
    forall r | r in v'.runs && PastSending(r) ensures RecordOf(v'.state, r).attemptId in sent {
      var k :| 0 <= k < |v'.runs| && v'.runs[k] == r;
      if k != i {
        assert v.runs[k] == r && r in v.runs;
      } else {
        assert RecordOf(v'.state, r).attemptId == RecordOf(v.state, v.runs[i]).attemptId by {
          assert RunOk(w.journal, v, v.runs[i]);
        }
      }
    }
  }

  lemma DropKeepsSent(v: Volatile, i: nat, active: seq<Id>, sent: seq<Id>)
    requires SentIn(v, sent) && i < |v.runs|
    ensures SentIn(v.(state := v.state.(active := active), runs := v.runs[..i] + v.runs[i + 1..]), sent)
  {
  }

  lemma ReconcileKeepsSent(cfg: Config, w: World, answer: Answer, newAttempt: Id)
    requires Disciplined(w) && ResultsSent(w) && w.process.Up? && w.process.v.pending != []
    ensures ResultsSent(DoReconcile(cfg, w, w.process.v, answer, newAttempt, true))
  {
    var v := w.process.v;
    var e := v.pending[0];
    var s := AfterDecision(v.state, e, Decide(cfg, v.state, e, answer), newAttempt);
    assert e in v.pending;
    RunsAreCurrent(w);
    forall r | r in v.runs && PastSending(r) ensures RecordOf(s, r).attemptId in w.sent {
      var i :| 0 <= i < |v.runs| && v.runs[i] == r;
      PendingNotRunning(w, e, i);
      OtherCallKept(v.state, e, Decide(cfg, v.state, e, answer), newAttempt, r);
    }
  }

  lemma OtherCallKept(s: State, e: Entry, d: Decision, newAttempt: Id, r: Run)
    requires WellFormed(s) && Current(s, r) && r.callId != e.callId
    ensures RecordOf(AfterDecision(s, e, d, newAttempt), r).attemptId == RecordOf(s, r).attemptId
  {
  }

  lemma WorkKeepsSent(cfg: Config, w: World, step: Step)
    requires Disciplined(w) && ResultsSent(w) && CalmStep(cfg, w, step) && Enabled(cfg, w, step)
    requires step.Start? || step.Finish? || step.Retire? || step.Reconcile? || step.Save?
    ensures ResultsSent(Next(cfg, w, step))
  {
    match step
    case Save =>
      RunsAreCurrent(w);
      SaveKeepsSent(w, w.process.v);
    case Start(_, _) => StartKeepsSent(cfg, w);
    case Finish(i, execution) => FinishKeepsSent(cfg, w, i, execution);
    case Retire(i) => DropKeepsSent(w.process.v, i, Retired(w.process.v.state, w.process.v.runs[i].taskId).active, w.sent);
    case Reconcile(answer, newAttempt, _) => ReconcileKeepsSent(cfg, w, answer, newAttempt);
  }

  lemma PhasesKeepSent(cfg: Config, w: World, step: Step)
    requires Disciplined(w) && ResultsSent(w) && Enabled(cfg, w, step) && (step.Invoke? || step.Send? || step.Record?)
    ensures ResultsSent(Next(cfg, w, step))
  {
    var v := w.process.v;
    match step
    case Invoke(i) => PhaseKeepsSent(w, i, Invoked, w.sent);
    case Send(i) => PhaseKeepsSent(w, i, ResultSent, w.sent + [RecordOf(v.state, v.runs[i]).attemptId]);
    case Record(i, _) =>
      assert v.runs[i] in v.runs;
      PhaseKeepsSent(w, i, RowWritten, w.sent);
  }

  lemma OthersKeepSent(cfg: Config, w: World, step: Step)
    requires ResultsSent(w) && Enabled(cfg, w, step)
    requires step.Deliver? || step.Crash? || step.Boot? || step.Check? || step.Deduplicate? || step.AckHeld? || step.BeginReconcile?
    ensures ResultsSent(Next(cfg, w, step))
  {
  }

  lemma StepKeepsSent(cfg: Config, w: World, step: Step)
    requires Disciplined(w) && ResultsSent(w) && CalmStep(cfg, w, step)
    ensures ResultsSent(Next(cfg, w, step))
  {
    if Enabled(cfg, w, step) {
      if IsInsertion(step) {
        InsertionKeepsSent(cfg, w, step);
      } else if step.Start? || step.Finish? || step.Retire? || step.Reconcile? || step.Save? {
        WorkKeepsSent(cfg, w, step);
      } else if step.Invoke? || step.Send? || step.Record? {
        PhasesKeepSent(cfg, w, step);
      } else {
        OthersKeepSent(cfg, w, step);
      }
    }
  }

  lemma {:induction false} CalmRunsSendFirst(cfg: Config, workers: int, steps: seq<Step>)
    requires Calm(cfg, InitialWorld(workers), steps)
    ensures ResultsSent(Execute(cfg, InitialWorld(workers), steps))
    decreases |steps|
  {
    if steps != [] {
      var init := steps[..|steps| - 1];
      CalmRunsSendFirst(cfg, workers, init);
      CalmRunsDisciplined(cfg, workers, init);
      StepKeepsSent(cfg, Execute(cfg, InitialWorld(workers), init), steps[|steps| - 1]);
    }
  }

  // ---------------------------------------------------------------------- the third window

  /**
   The terminal row is the last thing a run writes, after its result was sent. A crash in between
   leaves the attempt open, so the next boot re-runs, or reports as failed, a call that was delivered.
   */
  lemma {:induction false} DeliveredIsReopenedIffUnrecorded(cfg: Config, workers: int, steps: seq<Step>, i: nat, recorded: bool, saved: bool, bootId: Id)
    requires Calm(cfg, InitialWorld(workers), steps)
    requires var w := Execute(cfg, InitialWorld(workers), steps);
             && Enabled(cfg, w, Record(i, true)) && bootId != "" && bootId !in w.minted
             && !ClosedIn(w.journal, RecordOf(w.process.v.state, w.process.v.runs[i]).attemptId)
    ensures var w := Execute(cfg, InitialWorld(workers), steps);
            var a := RecordOf(w.process.v.state, w.process.v.runs[i]).attemptId;
            var w' := Restarted(cfg, if recorded then Next(cfg, w, Record(i, true)) else w, saved, bootId, workers);
            && a in w.sent
            && ((exists e :: e in Interrupted(w'.journal, Some(bootId)) && e.attemptId == a) <==> !recorded)
  {
    var w := Execute(cfg, InitialWorld(workers), steps);
    CalmRunsDisciplined(cfg, workers, steps);
    CalmRunsSendFirst(cfg, workers, steps);
    assert w.process.v.runs[i] in w.process.v.runs;
    UnrecordedStart(cfg, w, i, recorded, saved, bootId, workers);
  }

  lemma UnrecordedStart(cfg: Config, w: World, i: nat, recorded: bool, saved: bool, bootId: Id, workers: int)
    requires Disciplined(w) && Enabled(cfg, w, Record(i, true)) && bootId != "" && bootId !in w.minted
    requires !ClosedIn(w.journal, RecordOf(w.process.v.state, w.process.v.runs[i]).attemptId)
    ensures var w' := Restarted(cfg, if recorded then Next(cfg, w, Record(i, true)) else w, saved, bootId, workers);
            (exists e :: e in Interrupted(w'.journal, Some(bootId)) && e.attemptId == RecordOf(w.process.v.state, w.process.v.runs[i]).attemptId)
            <==> !recorded
  {
    var v := w.process.v;
    var t := RecordOf(v.state, v.runs[i]);
    assert RunOk(w.journal, v, v.runs[i]);
    var w1 := if recorded then Next(cfg, w, Record(i, true)) else w;
    RestartedWorld(cfg, w1, saved, bootId, workers);
    OpenUntilClosed(w.journal, TerminalEntry(v.bootId, t), bootId, recorded);
  }

  /** A start of another boot is interrupted until the row that closes it is there. */
  lemma OpenUntilClosed(journal: seq<Entry>, row: Entry, bootId: Id, recorded: bool)
    requires row.entryType.Terminal? && StartedHere(journal, row.bootId, row.attemptId) && !ClosedIn(journal, row.attemptId) && row.bootId != bootId
    ensures (exists e :: e in Interrupted(if recorded then journal + [row] else journal, Some(bootId)) && e.attemptId == row.attemptId) <==> !recorded
  {
    var after := if recorded then journal + [row] else journal;
    FilterMembers(IsInterrupted(after, Some(bootId)), after);
    if recorded {
      ClosedSnoc(journal, row, row.attemptId);
    } else {
      var e :| e in journal && e.entryType.Started? && e.attemptId == row.attemptId && e.bootId == row.bootId;
      assert e in Interrupted(journal, Some(bootId));
    }
  }
}
