/**
 How often the executor is invoked for one call, over every run with any crashes: once, plus
 once for every row that records a superseded attempt, plus once for every fault (an insertion
 whose duplicate check was stale, or a superseded row the journal lost). The one thing asked of
 the environment is that no sender names a task id the table already holds.
 */
module AtMostOnce {
  import opened Collections
  import opened ExecutionJournal
  import opened ResponderState
  import opened ResponderTasks
  import opened ResponderWorld
  import opened Results
  import ResultBuilder

  function SupersedesCall(c: Id): Entry -> bool {
    (e: Entry) => e.entryType.Superseded? && e.callId == c
  }

  function AwaitsInvoke(c: Id): Run -> bool {
    (r: Run) => r.callId == c && (r.phase == Unsaved || r.phase == Ready)
  }

  function ReadyToInvoke(c: Id): Run -> bool {
    (r: Run) => r.callId == c && r.phase == Ready
  }

  function Invocations(w: World, c: Id): nat {
    Tally(Is(c), w.invoked)
  }

  function SupersededRows(w: World, c: Id): nat {
    Tally(SupersedesCall(c), w.journal)
  }

  function Faults(w: World, c: Id): nat {
    Tally(Is(c), w.stale) + Tally(Is(c), w.lost)
  }

  /** What a call may still cost: one execution once it is known, and one for each re-run or fault. */
  function Allowance(w: World, s: State, c: Id): nat {
    One(c in s.requestIndex) + SupersededRows(w, c) + Faults(w, c)
  }

  function RunsOf(w: World): seq<Run> {
    if w.process.Up? then w.process.v.runs else []
  }

  /** Invocations made, invocations a crash cannot take back, and what the snapshot would queue again. */
  ghost predicate DurableBudget(w: World, c: Id) {
    Invocations(w, c) + Tally(ReadyToInvoke(c), RunsOf(w)) + QueuedTimes(w.snapshot, c) <= Allowance(w, w.snapshot, c)
  }

  ghost predicate LiveBudget(w: World, c: Id) {
    w.process.Up? ==>
      Invocations(w, c) + Tally(AwaitsInvoke(c), w.process.v.runs) + QueuedTimes(w.process.v.state, c) <= Allowance(w, w.process.v.state, c)
  }

  /** A state whose names are all among those drawn or named so far. */
  ghost predicate SoundState(s: State, minted: set<Id>) {
    WellFormed(s) && s.tasks.Keys <= minted && s.requestIndex.Keys <= minted
  }

  ghost predicate Sound(w: World) {
    SoundState(w.snapshot, w.minted) && (w.process.Up? ==> SoundState(w.process.v.state, w.minted))
  }

  ghost predicate Budget(w: World, c: Id) {
    Sound(w) && DurableBudget(w, c) && LiveBudget(w, c)
  }

  // ------------------------------------------------------------------- step by step

  lemma SavedRunsCounts(runs: seq<Run>, c: Id)
    ensures Tally(AwaitsInvoke(c), SavedRuns(runs)) == Tally(AwaitsInvoke(c), runs)
    ensures Tally(ReadyToInvoke(c), SavedRuns(runs)) == Tally(AwaitsInvoke(c), runs)
  {
    if runs != [] {
      var init := runs[..|runs| - 1];
      SavedRunsCounts(init, c);
      assert SavedRuns(runs)[..|runs| - 1] == SavedRuns(init);
    }
  }

  lemma SaveKeeps(w: World, v: Volatile, c: Id)
    requires SoundState(v.state, w.minted)
    requires Invocations(w, c) + Tally(AwaitsInvoke(c), v.runs) + QueuedTimes(v.state, c) <= Allowance(w, v.state, c)
    ensures Budget(SaveNow(w, v), c)
  {
    SavedRunsCounts(v.runs, c);
  }

  lemma ContinueKeeps(w: World, v: Volatile, saved: bool, c: Id)
    requires SoundState(v.state, w.minted) && SoundState(w.snapshot, w.minted)
    requires Invocations(w, c) + Tally(AwaitsInvoke(c), v.runs) + QueuedTimes(v.state, c) <= Allowance(w, v.state, c)
    requires Invocations(w, c) + Tally(ReadyToInvoke(c), v.runs) + QueuedTimes(w.snapshot, c) <= Allowance(w, w.snapshot, c)
    ensures Budget(Continue(w, v, saved), c)
  {
    if saved {
      SaveKeeps(w, v, c);
    }
  }

  lemma StaleCheckCounts(w: World, s: State, t: Task, c: Id)
    ensures Faults(Noted(w, s, t), c) == Faults(w, c) + One(t.requestId == c && c in s.requestIndex)
  {
    if t.requestId in s.requestIndex {
      TallySnoc(Is(c), w.stale, t.requestId);
    } else {
      assert w.stale + [] == w.stale;
    }
  }

  /** Queueing a new task costs its call one execution, paid by becoming known or by a fault; rejecting it costs none. */
  lemma InsertKeeps(w: World, step: Step, t: Task, c: Id)
    requires w.process.Up? && Budget(w, c) && t.taskId !in w.process.v.state.tasks
    requires step.Accept? || step.Reject? ==> step.k < |w.process.v.held|
    ensures Budget(DoInsert(w, step, t), c)
  {
    var s := w.process.v.state;
    if step.Reject? {
      RememberKeeps(s, t, c);
    } else {
      EnqueueCounts(s, t, c);
    }
    StaleCheckCounts(w, s, t, c);
    ContinueKeeps(Noted(w, s, t), Inserting(w.process.v, step, t), SavesAtOnce(step), c);
  }

  /** Without a name from the sender a task id is fresh. */
  lemma UnnamedIsFresh(cfg: Config, w: World, step: Step, c: Id)
    requires Budget(w, c)
    requires step.Accept? || step.Reject? ==> Holds(w, step.k, Checked) ==> !Given(w.process.v.held[step.k].env.taskId)
    requires step.HttpAccept? ==> !Given(step.env.taskId)
    ensures NamesFreshTask(cfg, w, step)
  {
  }

  lemma StartKeeps(cfg: Config, w: World, appended: bool, saved: bool, c: Id)
    requires w.process.Up? && Budget(w, c) && w.process.v.state.queue != []
    ensures Budget(DoStart(cfg, w, w.process.v, appended, saved), c)
  {
    var v := w.process.v;
    var id := v.state.queue[0];
    var t := v.state.tasks[id];
    StartCounts(cfg, v.state, c);
    var rows := if appended then [StartEntry(cfg, v.bootId, t)] else [];
    TallyConcat(SupersedesCall(c), w.journal, rows);
    TallyZero(SupersedesCall(c), rows);
    var r := Run(id, t.requestId, t, Unsaved);
    TallySnoc(AwaitsInvoke(c), v.runs, r);
    TallySnoc(ReadyToInvoke(c), v.runs, r);
    ContinueKeeps(w.(journal := w.journal + rows), v.(state := StartHead(cfg, v.state), runs := v.runs + [r]), saved, c);
  }

  /** A run moving on does not await its invocation any more than before. */
  lemma PhaseCounts(runs: seq<Run>, i: nat, r: Run, c: Id)
    requires i < |runs| && r.callId == runs[i].callId && r.phase != Unsaved && r.phase != Ready
    ensures Tally(AwaitsInvoke(c), runs[i := r]) + One(AwaitsInvoke(c)(runs[i])) == Tally(AwaitsInvoke(c), runs)
    ensures Tally(ReadyToInvoke(c), runs[i := r]) + One(ReadyToInvoke(c)(runs[i])) == Tally(ReadyToInvoke(c), runs)
  {
    TallyUpdate(AwaitsInvoke(c), runs, i, r);
    TallyUpdate(ReadyToInvoke(c), runs, i, r);
  }

  lemma InvokeKeeps(cfg: Config, w: World, i: nat, c: Id)
    requires Budget(w, c) && Enabled(cfg, w, Invoke(i))
    ensures Budget(Next(cfg, w, Invoke(i)), c)
  {
    var r := w.process.v.runs[i];
    PhaseCounts(w.process.v.runs, i, r.(phase := Invoked), c);
    TallySnoc(Is(c), w.invoked, r.callId);
  }

  lemma FinishKeeps(cfg: Config, w: World, i: nat, execution: ResultBuilder.Execution, c: Id)
    requires Budget(w, c) && Enabled(cfg, w, Finish(i, execution))
    ensures Budget(Next(cfg, w, Finish(i, execution)), c)
  {
    var v := w.process.v;
    var r := v.runs[i];
    var t := ResultBuilder.FinishTask(cfg.signer, RecordOf(v.state, r), execution);
    PhaseCounts(v.runs, i, DoFinish(cfg, v, i, execution).runs[i], c);
    if Current(v.state, r) {
      UpdateCounts(v.state, r.taskId, t, c);
    }
  }

  lemma AfterwardsKeeps(cfg: Config, w: World, step: Step, c: Id)
    requires Budget(w, c) && Enabled(cfg, w, step) && (step.Send? || step.Record?)
    ensures Budget(Next(cfg, w, step), c)
  {
    var v := w.process.v;
    PhaseCounts(v.runs, step.i, Next(cfg, w, step).process.v.runs[step.i], c);
    if step.Record? {
      var rows := if step.appended then [TerminalEntry(v.bootId, RecordOf(v.state, v.runs[step.i]))] else [];
      TallyConcat(SupersedesCall(c), w.journal, rows);
      TallyZero(SupersedesCall(c), rows);
    }
  }

  /** A lost or recorded superseded row is paid for by a fault or by itself. */
  lemma DecisionIsPaid(w: World, v: Volatile, e: Entry, d: Decision, appended: bool, c: Id)
    ensures var journal := w.journal + (if appended then DecisionEntries(v.bootId, e, d) else []);
            var lost := w.lost + (if d.Rerun? && !appended then [e.callId] else []);
            Tally(SupersedesCall(c), journal) + Tally(Is(c), lost)
            == SupersededRows(w, c) + Tally(Is(c), w.lost) + One(d.Rerun? && e.callId == c)
            && Tally(SupersedesCall(c), journal) >= SupersededRows(w, c) && Tally(Is(c), lost) >= Tally(Is(c), w.lost)
  {
    assert w.journal + [] == w.journal && w.lost + [] == w.lost;
    if appended && !d.Unreported? {
      TallySnoc(SupersedesCall(c), w.journal, DecisionEntries(v.bootId, e, d)[0]);
    }
    if d.Rerun? && !appended {
      TallySnoc(Is(c), w.lost, e.callId);
    }
  }

  lemma ReconcileKeeps(cfg: Config, w: World, answer: Answer, newAttempt: Id, appended: bool, c: Id)
    requires w.process.Up? && Budget(w, c) && w.process.v.pending != []
    ensures Budget(DoReconcile(cfg, w, w.process.v, answer, newAttempt, appended), c)
  {
    var v := w.process.v;
    var e := v.pending[0];
    var d := Decide(cfg, v.state, e, answer);
    DecisionCounts(v.state, e, d, newAttempt, c);
    DecisionIsPaid(w, v, e, d, appended, c);
  }

  lemma CrashKeeps(w: World, c: Id)
    requires Budget(w, c)
    ensures Budget(w.(process := Down), c)
  {
  }

  lemma BootKeeps(w: World, bootId: Id, workers: int, c: Id)
    requires Budget(w, c) && w.process.Down?
    ensures Budget(w.(minted := w.minted + {bootId},
                      process := Up(Volatile(bootId, Hydrated(w.snapshot, workers), w.snapshotOrdered, [], [], []))), c)
  {
  }

  lemma InsertionKeeps(cfg: Config, w: World, step: Step, c: Id)
    requires Budget(w, c) && Enabled(cfg, w, step) && (step.Accept? || step.Reject? || step.HttpAccept?) && NamesFreshTask(cfg, w, step)
    ensures Budget(Next(cfg, w, step), c)
  {
    InsertionEffect(cfg, w, step);
    InsertKeeps(w, step, NewTask(cfg, w, step).value, c);
  }

  lemma DropRunKeeps(w: World, i: nat, active: seq<Id>, c: Id)
    requires w.process.Up? && Budget(w, c) && i < |w.process.v.runs|
    ensures var v := w.process.v;
            Budget(w.(process := Up(v.(state := v.state.(active := active), runs := v.runs[..i] + v.runs[i + 1..]))), c)
  {
    TallyDrop(AwaitsInvoke(c), w.process.v.runs, i);
    TallyDrop(ReadyToInvoke(c), w.process.v.runs, i);
    assert QueuedTimes(w.process.v.state.(active := active), c) == QueuedTimes(w.process.v.state, c);
  }

  /** Steps that touch the inbox, what is held or what is pending, and nothing that is counted. */
  lemma UncountedKeeps(cfg: Config, w: World, step: Step, c: Id)
    requires Budget(w, c) && Enabled(cfg, w, step)
    requires step.Deliver? || step.Check? || step.Deduplicate? || step.AckHeld? || step.BeginReconcile?
    ensures Budget(Next(cfg, w, step), c)
  {
  }

  lemma RunEndKeeps(cfg: Config, w: World, step: Step, c: Id)
    requires Budget(w, c) && Enabled(cfg, w, step) && (step.LoseRun? || step.Retire?)
    ensures Budget(Next(cfg, w, step), c)
  {
    var v := w.process.v;
    assert v.state.(active := v.state.active) == v.state;
    DropRunKeeps(w, step.i, if step.LoseRun? then v.state.active else Retired(v.state, v.runs[step.i].taskId).active, c);
  }

  lemma RunMoveKeeps(cfg: Config, w: World, step: Step, c: Id)
    requires Budget(w, c) && Enabled(cfg, w, step) && (step.Invoke? || step.Finish? || step.Send? || step.Record?)
    ensures Budget(Next(cfg, w, step), c)
  {
    match step
    case Invoke(i) => InvokeKeeps(cfg, w, i, c);
    case Finish(i, execution) => FinishKeeps(cfg, w, i, execution, c);
    case Send(_) => AfterwardsKeeps(cfg, w, step, c);
    case Record(_, _) => AfterwardsKeeps(cfg, w, step, c);
  }

  lemma ProcessKeeps(cfg: Config, w: World, step: Step, c: Id)
    requires Budget(w, c) && Enabled(cfg, w, step)
    requires step.Crash? || step.Boot? || step.Save? || step.Start? || step.Reconcile?
    ensures Budget(Next(cfg, w, step), c)
  {
    match step
    case Crash => CrashKeeps(w, c);
    case Boot(bootId, workers) => BootKeeps(w, bootId, workers, c);
    case Save => SaveKeeps(w, w.process.v, c);
    case Start(appended, saved) => StartKeeps(cfg, w, appended, saved, c);
    case Reconcile(answer, newAttempt, appended) => ReconcileKeeps(cfg, w, answer, newAttempt, appended, c);
  }

  lemma {:induction false} StepKeepsBudget(cfg: Config, w: World, step: Step, c: Id)
    requires Budget(w, c) && NamesFreshTask(cfg, w, step)
    ensures Budget(Next(cfg, w, step), c)
  {
    if Enabled(cfg, w, step) {
      if step.Accept? || step.Reject? || step.HttpAccept? {
        InsertionKeeps(cfg, w, step, c);
      } else if step.LoseRun? || step.Retire? {
        RunEndKeeps(cfg, w, step, c);
      } else if step.Invoke? || step.Finish? || step.Send? || step.Record? {
        RunMoveKeeps(cfg, w, step, c);
      } else if step.Crash? || step.Boot? || step.Save? || step.Start? || step.Reconcile? {
        ProcessKeeps(cfg, w, step, c);
      } else {
        UncountedKeeps(cfg, w, step, c);
      }
    }
  }

  lemma {:induction false} RunKeepsBudget(cfg: Config, workers: int, steps: seq<Step>, c: Id)
    requires Throughout(cfg, InitialWorld(workers), steps, Fresh(cfg))
    ensures Budget(Execute(cfg, InitialWorld(workers), steps), c)
    decreases |steps|
  {
    if steps != [] {
      RunKeepsBudget(cfg, workers, steps[..|steps| - 1], c);
      StepKeepsBudget(cfg, Execute(cfg, InitialWorld(workers), steps[..|steps| - 1]), steps[|steps| - 1], c);
    }
  }

  /**
   The executor is invoked for a call at most once more than the journal has superseded rows for
   it, plus the faults: over every sequence of steps, crashes and restarts, wherever they fall, in
   which no insertion takes a task id the table already holds.
   */
  lemma {:induction false} InvocationsBounded(cfg: Config, workers: int, steps: seq<Step>, c: Id)
    requires Throughout(cfg, InitialWorld(workers), steps, Fresh(cfg))
    ensures var w := Execute(cfg, InitialWorld(workers), steps);
            Invocations(w, c) <= 1 + SupersededRows(w, c) + Faults(w, c)
  {
    RunKeepsBudget(cfg, workers, steps, c);
  }

  // ------------------------------------------------------- who may be superseded at all

  ghost predicate RerunAllowed(cfg: Config, recorded: Option<string>) {
    exists hotline: Id :: cfg.mayAutoRerun(hotline, recorded)
  }

  ghost predicate StartedAs(journal: seq<Entry>, e: Entry) {
    exists s :: s in journal && s.entryType.Started? && s.callId == e.callId && s.attemptId == e.attemptId
                && s.recoverability == e.recoverability
  }

  /** Every superseded row closes a recorded start whose recorded class allows a re-run. */
  ghost predicate Justified(cfg: Config, w: World) {
    && (forall e :: e in w.journal && e.entryType.Superseded? ==> RerunAllowed(cfg, e.recoverability) && StartedAs(w.journal, e))
    && (w.process.Up? ==> forall e :: e in w.process.v.pending ==> e in w.journal && e.entryType.Started?)
    && (forall c :: c in w.lost ==> StartedRerunnable(cfg, w.journal, c))
  }

  /** Some recorded start of the call carries a class that allows a re-run. */
  ghost predicate StartedRerunnable(cfg: Config, journal: seq<Entry>, c: Id) {
    exists s :: s in journal && s.entryType.Started? && s.callId == c && RerunAllowed(cfg, s.recoverability)
  }

  lemma AppendKeepsJustified(cfg: Config, journal: seq<Entry>, rows: seq<Entry>)
    requires forall e :: e in journal && e.entryType.Superseded? ==> RerunAllowed(cfg, e.recoverability) && StartedAs(journal, e)
    requires forall e :: e in rows && e.entryType.Superseded? ==> RerunAllowed(cfg, e.recoverability) && StartedAs(journal, e)
    ensures forall e :: e in journal + rows && e.entryType.Superseded? ==>
              RerunAllowed(cfg, e.recoverability) && StartedAs(journal + rows, e)
  {
  }

  /** What one step appends to the journal. */
  function NewRows(cfg: Config, w: World, step: Step): seq<Entry> {
    if !Enabled(cfg, w, step) then [] else
      match step
      case Start(appended, _) =>
        var v := w.process.v;
        if appended && v.state.queue[0] in v.state.tasks then [StartEntry(cfg, v.bootId, v.state.tasks[v.state.queue[0]])] else []
      case Record(i, appended) =>
        var v := w.process.v;
        if appended then [TerminalEntry(v.bootId, RecordOf(v.state, v.runs[i]))] else []
      case Reconcile(answer, _, appended) =>
        var v := w.process.v;
        if appended then DecisionEntries(v.bootId, v.pending[0], Decide(cfg, v.state, v.pending[0], answer)) else []
      case _ => []
  }

  lemma JournalGrows(cfg: Config, w: World, step: Step)
    ensures Next(cfg, w, step).journal == w.journal + NewRows(cfg, w, step)
  {
  }

  lemma PendingComesFromStarts(cfg: Config, w: World, step: Step, e: Entry)
    requires Next(cfg, w, step).process.Up? && e in Next(cfg, w, step).process.v.pending
    requires w.process.Up? ==> forall x :: x in w.process.v.pending ==> x in w.journal && x.entryType.Started?
    ensures e in w.journal && e.entryType.Started?
  {
    if step.BeginReconcile? && w.process.Up? {
      FilterMembers(IsInterrupted(w.journal, Some(w.process.v.bootId)), w.journal);
    }
  }

  lemma RowsAreJustified(cfg: Config, w: World, step: Step)
    requires Justified(cfg, w)
    ensures forall e :: e in NewRows(cfg, w, step) && e.entryType.Superseded? ==> RerunAllowed(cfg, e.recoverability) && StartedAs(w.journal, e)
  {
    if step.Reconcile? && Enabled(cfg, w, step) {
      var e := w.process.v.pending[0];
      assert e in w.process.v.pending;
      if Decide(cfg, w.process.v.state, e, step.answer).Rerun? {
        assert StartedAs(w.journal, SupersededEntry(w.process.v.bootId, e));
      }
    }
  }

  lemma OnlyRerunsAreLost(cfg: Config, w: World, step: Step, c: Id)
    requires c in Next(cfg, w, step).lost && c !in w.lost
    ensures step.Reconcile? && Enabled(cfg, w, step) && c == w.process.v.pending[0].callId
    ensures Decide(cfg, w.process.v.state, w.process.v.pending[0], step.answer).Rerun?
  {
  }

  lemma LossIsJustified(cfg: Config, w: World, step: Step, c: Id)
    requires Justified(cfg, w) && c in Next(cfg, w, step).lost && c !in w.lost
    ensures StartedRerunnable(cfg, w.journal, c)
  {
    OnlyRerunsAreLost(cfg, w, step, c);
    assert w.process.v.pending[0] in w.process.v.pending;
  }

  lemma LossesStayJustified(cfg: Config, w: World, step: Step, c: Id)
    requires Justified(cfg, w) && c in Next(cfg, w, step).lost
    ensures StartedRerunnable(cfg, Next(cfg, w, step).journal, c)
  {
    if c !in w.lost {
      LossIsJustified(cfg, w, step, c);
    }
    JournalGrows(cfg, w, step);
    var s :| s in w.journal && s.entryType.Started? && s.callId == c && RerunAllowed(cfg, s.recoverability);
    assert s in w.journal + NewRows(cfg, w, step);
  }

  lemma StepKeepsJustified(cfg: Config, w: World, step: Step)
    requires Justified(cfg, w)
    ensures Justified(cfg, Next(cfg, w, step))
  {
    var w', rows := Next(cfg, w, step), NewRows(cfg, w, step);
    JournalGrows(cfg, w, step);
    RowsAreJustified(cfg, w, step);
    AppendKeepsJustified(cfg, w.journal, rows);
    forall c | c in w'.lost ensures StartedRerunnable(cfg, w'.journal, c) {
      LossesStayJustified(cfg, w, step, c);
    }
    if w'.process.Up? {
      forall e | e in w'.process.v.pending ensures e in w'.journal && e.entryType.Started? {
        PendingComesFromStarts(cfg, w, step, e);
      }
    }
  }

  lemma {:induction false} RunKeepsJustified(cfg: Config, workers: int, steps: seq<Step>)
    ensures Justified(cfg, Execute(cfg, InitialWorld(workers), steps))
    decreases |steps|
  {
    if steps != [] {
      RunKeepsJustified(cfg, workers, steps[..|steps| - 1]);
      StepKeepsJustified(cfg, Execute(cfg, InitialWorld(workers), steps[..|steps| - 1]), steps[|steps| - 1]);
    }
  }
}
