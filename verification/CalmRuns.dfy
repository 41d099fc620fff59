/** The invariant of calm runs, step by step, and what it says about every reachable state. */
module CalmRuns {
  import opened AtMostOnce
  import opened AttemptDiscipline
  import opened Collections
  import opened DuplicateChecks
  import opened ExecutionJournal
  import opened ResponderState
  import opened ResponderTasks
  import opened ResponderWorld
  import ResultBuilder

  ghost predicate StartedHere(journal: seq<Entry>, bootId: Id, a: Id) {
    exists e :: e in journal && e.entryType.Started? && e.attemptId == a && e.bootId == bootId
  }

  /** Nothing an earlier boot started for this call is still open. */
  ghost predicate NoOldOpen(journal: seq<Entry>, bootId: Id, c: Id) {
    forall e :: e in journal && e.entryType.Started? && e.callId == c && e.bootId != bootId ==> ClosedIn(journal, e.attemptId)
  }

  ghost predicate RunOk(journal: seq<Entry>, v: Volatile, r: Run) {
    && r.phase != Unsaved && r.taskId in v.state.tasks && v.state.tasks[r.taskId].requestId == r.callId
    && StartedHere(journal, v.bootId, v.state.tasks[r.taskId].attemptId)
    && NoOldOpen(journal, v.bootId, r.callId)
  }

  ghost predicate PendingOk(journal: seq<Entry>, v: Volatile) {
    && (forall e :: e in v.pending ==>
          e in journal && e.entryType.Started? && e.bootId != v.bootId && !ClosedIn(journal, e.attemptId))
    && (forall i, j :: 0 <= i < j < |v.pending| ==> v.pending[i].attemptId != v.pending[j].attemptId)
  }

  /** The scheduler's shape: queue and workers hold distinct known tasks, apart from each other and within the bound. */
  ghost predicate SchedulerOk(s: State) {
    && NoDuplicates(s.queue) && NoDuplicates(s.active)
    && (forall id :: id in s.queue ==> id in s.tasks)
    && (forall id :: id in s.active ==> id in s.tasks && id !in s.queue)
    && |s.active| <= MaxWorkers(None, s.workers)
  }

  ghost predicate VolatileOk(journal: seq<Entry>, v: Volatile, minted: set<Id>) {
    && StateOk(journal, v.state, minted) && SchedulerOk(v.state)
    && v.bootId in minted && v.bootId != ""
    && |v.runs| == |v.state.active|
    && (forall i :: 0 <= i < |v.runs| ==> v.runs[i].taskId == v.state.active[i] && RunOk(journal, v, v.runs[i]))
    && PendingOk(journal, v)
    && (v.ordered ==> Sorted(v.state.tasks, v.state.queue))
  }

  ghost predicate Disciplined(w: World) {
    && JournalOk(w.journal, w.minted)
    && StateOk(w.journal, w.snapshot, w.minted)
    && (w.snapshotOrdered ==> Sorted(w.snapshot.tasks, w.snapshot.queue))
    && (w.process.Up? ==> VolatileOk(w.journal, w.process.v, w.minted))
  }

  // --------------------------------------------------------------------- small frames

  lemma RanksKept(tasks: map<Id, Task>, tasks': map<Id, Task>, queue: seq<Id>)
    requires Sorted(tasks, queue)
    requires forall id :: id in queue ==>
               id in tasks && id in tasks' && tasks'[id].priority == tasks[id].priority && tasks'[id].enqueuedAt == tasks[id].enqueuedAt
    ensures Sorted(tasks', queue)
  {
  }

  lemma StartedHereExtends(journal: seq<Entry>, rows: seq<Entry>, bootId: Id, a: Id)
    requires StartedHere(journal, bootId, a)
    ensures StartedHere(journal + rows, bootId, a)
  {
  }

  /** A row of this boot reopens nothing an earlier boot left. */
  lemma NoOldOpenExtends(journal: seq<Entry>, row: Entry, bootId: Id, c: Id)
    requires NoOldOpen(journal, bootId, c) && row.bootId == bootId
    ensures NoOldOpen(journal + [row], bootId, c)
  {
    forall e | e in journal + [row] && e.entryType.Started? && e.callId == c && e.bootId != bootId
      ensures ClosedIn(journal + [row], e.attemptId)
    {
      ClosedSnoc(journal, row, e.attemptId);
    }
  }

  lemma RunExtends(journal: seq<Entry>, row: Entry, v: Volatile, v': Volatile, r: Run)
    requires RunOk(journal, v, r) && row.bootId == v.bootId == v'.bootId
    requires r.taskId in v'.state.tasks && v'.state.tasks[r.taskId].requestId == v.state.tasks[r.taskId].requestId
    requires v'.state.tasks[r.taskId].attemptId == v.state.tasks[r.taskId].attemptId
    ensures RunOk(journal + [row], v', r)
  {
    StartedHereExtends(journal, [row], v.bootId, v.state.tasks[r.taskId].attemptId);
    NoOldOpenExtends(journal, row, v.bootId, r.callId);
  }

  lemma OldRunsExtend(journal: seq<Entry>, row: Entry, v: Volatile, v': Volatile)
    requires row.bootId == v.bootId == v'.bootId
    requires forall i :: 0 <= i < |v.runs| ==> RunOk(journal, v, v.runs[i])
    requires forall id :: id in v.state.tasks ==> id in v'.state.tasks && v'.state.tasks[id].requestId == v.state.tasks[id].requestId
                                                  && v'.state.tasks[id].attemptId == v.state.tasks[id].attemptId
    ensures forall i :: 0 <= i < |v.runs| ==> RunOk(journal + [row], v', v.runs[i])
  {
    forall i | 0 <= i < |v.runs| ensures RunOk(journal + [row], v', v.runs[i]) {
      RunExtends(journal, row, v, v', v.runs[i]);
    }
  }

  /** A call that is queued has nothing open, so a run of it starts with a clean past. */
  lemma QueuedHasNoOldOpen(journal: seq<Entry>, s: State, minted: set<Id>, id: Id, bootId: Id)
    requires StateOk(journal, s, minted) && id in s.queue
    ensures NoOldOpen(journal, bootId, s.tasks[id].requestId)
  {
    var c := s.tasks[id].requestId;
    var k :| 0 <= k < |s.queue| && s.queue[k] == id;
    TallyPositive(ForCall(s.tasks, c), s.queue, k);
    forall e | e in journal && e.entryType.Started? && e.callId == c ensures ClosedIn(journal, e.attemptId) {
      if !ClosedIn(journal, e.attemptId) {
        OpenIsCounted(journal, s, minted, e);
      }
    }
  }

  // ---------------------------------------------------------------------- the steps

  lemma SaveDisciplined(w: World, v: Volatile)
    requires JournalOk(w.journal, w.minted) && VolatileOk(w.journal, v, w.minted)
    ensures Disciplined(SaveNow(w, v))
  {
  }

  /** A new task in the table: the scheduler and the runs carry on as before. */
  lemma InsertKeepsVolatile(journal: seq<Entry>, v: Volatile, v1: Volatile, minted: set<Id>, more: set<Id>)
    requires VolatileOk(journal, v, minted) && minted <= more && StateOk(journal, v1.state, more)
    requires v1.(state := v.state, held := v.held, ordered := v.ordered) == v
    requires v1.state.active == v.state.active && v1.state.workers == v.state.workers
    requires forall id :: id in v.state.tasks ==> id in v1.state.tasks && v1.state.tasks[id] == v.state.tasks[id]
    requires (forall id :: id in v1.state.queue ==> id in v.state.queue || id !in v.state.tasks)
    requires v1.ordered ==> Sorted(v1.state.tasks, v1.state.queue)
    ensures VolatileOk(journal, v1, more)
  {
    forall i | 0 <= i < |v1.runs| ensures v1.runs[i].taskId == v1.state.active[i] && RunOk(journal, v1, v1.runs[i]) {
      assert RunOk(journal, v, v.runs[i]);
    }
  }

  lemma QueueingDisciplined(w: World, v: Volatile, step: Step, t: Task)
    requires Disciplined(w) && w.process == Up(v) && (step.HttpAccept? || (step.Accept? && step.k < |v.held|)) && step.saved
    requires t.requestId !in v.state.requestIndex && t.taskId !in v.state.tasks && AttemptUnused(w.journal, v.state, t.attemptId)
    ensures Disciplined(DoInsert(w, step, t))
  {
    var more := w.minted + {t.taskId, t.requestId, t.attemptId};
    var v1 := Inserting(v, step, t);
    var queue := v.state.queue + [t.taskId];
    EnqueueOk(w.journal, v.state, t, w.minted, more);
    SortSorts(v1.state.tasks, queue);
    SortMembers(v1.state.tasks, queue);
    InsertKeepsVolatile(w.journal, v, v1, w.minted, more);
    SaveDisciplined(Noted(w, v.state, t), v1);
  }

  lemma RejectDisciplined(w: World, v: Volatile, step: Step, t: Task)
    requires Disciplined(w) && w.process == Up(v) && step.Reject? && step.k < |v.held| && t.taskId !in v.state.tasks
    ensures Disciplined(DoInsert(w, step, t))
  {
    var more := w.minted + {t.taskId, t.requestId, t.attemptId};
    var v1 := Inserting(v, step, t);
    Monotone(w.journal, v.state, w.minted, more);
    Monotone(w.journal, w.snapshot, w.minted, more);
    RememberOk(w.journal, v.state, t, more);
    if v.ordered {
      RanksKept(v.state.tasks, v1.state.tasks, v.state.queue);
    }
    InsertKeepsVolatile(w.journal, v, v1, w.minted, more);
  }

  lemma NewRunOk(cfg: Config, w: World, v: Volatile, saved: Volatile, id: Id)
    requires StateOk(w.journal, v.state, w.minted) && id in v.state.queue && id in v.state.tasks && saved.bootId == v.bootId
    requires id in saved.state.tasks && saved.state.tasks[id].requestId == v.state.tasks[id].requestId
    requires saved.state.tasks[id].attemptId == v.state.tasks[id].attemptId
    ensures var t := v.state.tasks[id]; RunOk(w.journal + [StartEntry(cfg, v.bootId, t)], saved, Run(id, t.requestId, t, Ready))
  {
    var t := v.state.tasks[id];
    var row := StartEntry(cfg, v.bootId, t);
    QueuedHasNoOldOpen(w.journal, v.state, w.minted, id, v.bootId);
    NoOldOpenExtends(w.journal, row, v.bootId, t.requestId);
    assert row in w.journal + [row];
  }

  /** What the process holds once the start is saved. */
  function StartedVolatile(cfg: Config, v: Volatile): Volatile
    requires v.state.queue != [] && v.state.queue[0] in v.state.tasks
  {
    var id := v.state.queue[0];
    var r := Run(id, v.state.tasks[id].requestId, v.state.tasks[id], Unsaved);
    v.(state := StartHead(cfg, v.state), runs := SavedRuns(v.runs + [r]))
  }

  lemma StartedRunsOk(cfg: Config, w: World, v: Volatile)
    requires VolatileOk(w.journal, v, w.minted) && v.state.queue != []
    ensures var id := v.state.queue[0];
            && id in v.state.tasks
            && var saved, journal := StartedVolatile(cfg, v), w.journal + [StartEntry(cfg, v.bootId, v.state.tasks[id])];
            && |saved.runs| == |saved.state.active| && SavedRuns(saved.runs) == saved.runs
            && forall i :: 0 <= i < |saved.runs| ==> saved.runs[i].taskId == saved.state.active[i] && RunOk(journal, saved, saved.runs[i])
  {
    var id := v.state.queue[0];
    assert id in v.state.queue;
    var t := v.state.tasks[id];
    var saved, row := StartedVolatile(cfg, v), StartEntry(cfg, v.bootId, t);
    OldRunsExtend(w.journal, row, v, saved);
    NewRunOk(cfg, w, v, saved, id);
    forall i | 0 <= i < |saved.runs| ensures saved.runs[i].taskId == saved.state.active[i] && RunOk(w.journal + [row], saved, saved.runs[i]) {
      assert saved.runs[i] == if i < |v.runs| then v.runs[i] else Run(id, t.requestId, t, Ready);
    }
  }

  lemma StartedVolatileOk(cfg: Config, w: World, v: Volatile)
    requires VolatileOk(w.journal, v, w.minted) && JournalOk(w.journal, w.minted)
    requires v.state.queue != [] && |v.state.active| < MaxWorkers(None, v.state.workers)
    ensures v.state.queue[0] in v.state.tasks
    ensures var journal := w.journal + [StartEntry(cfg, v.bootId, v.state.tasks[v.state.queue[0]])];
            JournalOk(journal, w.minted) && VolatileOk(journal, StartedVolatile(cfg, v), w.minted)
  {
    StartedRunsOk(cfg, w, v);
    var id := v.state.queue[0];
    StartOk(cfg, w.journal, v.state, w.minted, v.bootId);
    PendingUnderRow(w.journal, v, StartEntry(cfg, v.bootId, v.state.tasks[id]), StartedVolatile(cfg, v));
    if v.ordered {
      RanksKept(v.state.tasks, StartHead(cfg, v.state).tasks, v.state.queue[1..]);
    }
    PushUnique(v.state.active, id);
  }

  lemma StartDisciplined(cfg: Config, w: World)
    requires Disciplined(w) && w.process.Up? && w.process.v.state.queue != []
    requires |w.process.v.state.active| < MaxWorkers(None, w.process.v.state.workers)
    ensures Disciplined(DoStart(cfg, w, w.process.v, true, true))
  {
    var v := w.process.v;
    StartedVolatileOk(cfg, w, v);
    StartedRunsOk(cfg, w, v);
    var w1 := w.(journal := w.journal + [StartEntry(cfg, v.bootId, v.state.tasks[v.state.queue[0]])]);
    SaveDisciplined(w1, StartedVolatile(cfg, v));
    assert DoStart(cfg, w, v, true, true) == SaveNow(w1, StartedVolatile(cfg, v));
  }

  /** A start row closes nothing, so what is pending stays pending. */
  lemma PendingUnderRow(journal: seq<Entry>, v: Volatile, row: Entry, v': Volatile)
    requires PendingOk(journal, v) && v'.bootId == v.bootId && v'.pending == v.pending
    requires row.entryType.Started? || forall e :: e in v.pending ==> e.attemptId != row.attemptId
    ensures PendingOk(journal + [row], v')
  {
  }

  /** Setting the result changes neither call, attempt nor rank of the task. */
  lemma FinishDisciplined(cfg: Config, w: World, i: nat, execution: ResultBuilder.Execution)
    requires Disciplined(w) && Enabled(cfg, w, Finish(i, execution))
    ensures Disciplined(Next(cfg, w, Finish(i, execution)))
  {
    var v := w.process.v;
    var r := v.runs[i];
    assert RunOk(w.journal, v, r);
    var t := ResultBuilder.FinishTask(cfg.signer, v.state.tasks[r.taskId], execution);
    var v' := DoFinish(cfg, v, i, execution);
    UpdateOk(w.journal, v.state, r.taskId, t, w.minted);
    FinishedRuns(cfg, w.journal, v, i, execution);
    if v.ordered {
      RanksKept(v.state.tasks, v'.state.tasks, v.state.queue);
    }
  }

  lemma FinishedRuns(cfg: Config, journal: seq<Entry>, v: Volatile, i: nat, execution: ResultBuilder.Execution)
    requires i < |v.runs| && |v.runs| == |v.state.active|
    requires forall k :: 0 <= k < |v.runs| ==> v.runs[k].taskId == v.state.active[k] && RunOk(journal, v, v.runs[k])
    ensures var v' := DoFinish(cfg, v, i, execution);
            && |v'.runs| == |v.runs| && v'.state.active == v.state.active
            && forall k :: 0 <= k < |v'.runs| ==> v'.runs[k].taskId == v'.state.active[k] && RunOk(journal, v', v'.runs[k])
  {
    var v' := DoFinish(cfg, v, i, execution);
    forall k | 0 <= k < |v'.runs| ensures v'.runs[k].taskId == v'.state.active[k] && RunOk(journal, v', v'.runs[k]) {
      assert RunOk(journal, v, v.runs[k]) && RunOk(journal, v, v.runs[i]);
    }
  }

  /** No attempt an earlier boot left open is the one a run of this boot closes. */
  lemma PendingIsNotMine(journal: seq<Entry>, v: Volatile, minted: set<Id>, a: Id)
    requires StateOk(journal, v.state, minted) && PendingOk(journal, v) && StartedHere(journal, v.bootId, a)
    ensures forall e :: e in v.pending ==> e.attemptId != a
  {
    var mine :| mine in journal && mine.entryType.Started? && mine.attemptId == a && mine.bootId == v.bootId;
    forall e | e in v.pending ensures e.attemptId != a {
      if e.attemptId == a {
        StartedOnce(journal, v.state, minted, e, mine);
      }
    }
  }

  lemma RecordedVolatileOk(w: World, v: Volatile, i: nat, row: Entry)
    requires JournalOk(w.journal, w.minted) && VolatileOk(w.journal, v, w.minted) && i < |v.runs|
    requires row.entryType.Terminal? && row.bootId == v.bootId && row.attemptId == v.state.tasks[v.runs[i].taskId].attemptId
    requires StateOk(w.journal + [row], v.state, w.minted)
    ensures VolatileOk(w.journal + [row], AtPhase(v, i, RowWritten), w.minted)
  {
    var v' := AtPhase(v, i, RowWritten);
    assert RunOk(w.journal, v, v.runs[i]);
    PendingIsNotMine(w.journal, v, w.minted, row.attemptId);
    PendingUnderRow(w.journal, v, row, v');
    OldRunsExtend(w.journal, row, v, v);
    forall k | 0 <= k < |v'.runs| ensures v'.runs[k].taskId == v'.state.active[k] && RunOk(w.journal + [row], v', v'.runs[k]) {
      assert RunOk(w.journal + [row], v, v.runs[k]);
    }
  }

  lemma RecordDisciplined(cfg: Config, w: World, i: nat)
    requires Disciplined(w) && Enabled(cfg, w, Record(i, true))
    ensures Disciplined(Next(cfg, w, Record(i, true)))
  {
    var v := w.process.v;
    assert RunOk(w.journal, v, v.runs[i]);
    var row := TerminalEntry(v.bootId, v.state.tasks[v.runs[i].taskId]);
    ClosingKeeps(w.journal, row, v.state, w.minted);
    ClosingKeeps(w.journal, row, w.snapshot, w.minted);
    RecordedVolatileOk(w, v, i, row);
  }

  lemma OthersKept(part: seq<Id>, id: Id)
    requires id !in part
    ensures Filter(OtherId(id), part) == part
  {
    FilterAll(OtherId(id), part);
  }

  lemma OneDropped(part: seq<Id>, id: Id)
    requires id !in part
    ensures Filter(OtherId(id), part + [id]) == part
  {
    FilterSnoc(OtherId(id), part, id);
    OthersKept(part, id);
    assert part + [] == part;
  }

  lemma DropAt(ids: seq<Id>, i: nat)
    requires NoDuplicates(ids) && i < |ids|
    ensures Filter(OtherId(ids[i]), ids) == ids[..i] + ids[i + 1..]
  {
    var front, back := ids[..i], ids[i + 1..];
    CutAround(ids, i, ids[i]);
    FilterConcat(OtherId(ids[i]), front + [ids[i]], back);
    OneDropped(front, ids[i]);
    OthersKept(back, ids[i]);
  }

  lemma RetiringKeepsState(journal: seq<Entry>, s: State, id: Id, minted: set<Id>)
    requires StateOk(journal, s, minted)
    ensures StateOk(journal, Retired(s, id), minted)
  {
    forall c ensures CallOnce(journal, Retired(s, id), c) { assert CallOnce(journal, s, c); }
    forall a ensures AttemptOnce(journal, Retired(s, id), a) { assert AttemptOnce(journal, s, a); }
  }

  lemma RetireDisciplined(w: World, i: nat)
    requires Disciplined(w) && w.process.Up? && i < |w.process.v.runs|
    ensures var v := w.process.v;
            Disciplined(w.(process := Up(v.(state := Retired(v.state, v.runs[i].taskId), runs := v.runs[..i] + v.runs[i + 1..]))))
  {
    var v := w.process.v;
    assert v.runs[i].taskId == v.state.active[i];
    DropAt(v.state.active, i);
    var v' := v.(state := Retired(v.state, v.runs[i].taskId), runs := v.runs[..i] + v.runs[i + 1..]);
    RemainingRuns(w.journal, v, v', i);
    RetiringKeepsState(w.journal, v.state, v.runs[i].taskId, w.minted);
  }

  lemma RemainingRuns(journal: seq<Entry>, v: Volatile, v': Volatile, i: nat)
    requires i < |v.runs| == |v.state.active| && v'.bootId == v.bootId && v'.state.tasks == v.state.tasks
    requires v'.runs == v.runs[..i] + v.runs[i + 1..] && v'.state.active == v.state.active[..i] + v.state.active[i + 1..]
    requires forall k :: 0 <= k < |v.runs| ==> v.runs[k].taskId == v.state.active[k] && RunOk(journal, v, v.runs[k])
    ensures forall k :: 0 <= k < |v'.runs| ==> v'.runs[k].taskId == v'.state.active[k] && RunOk(journal, v', v'.runs[k])
  {
    forall k | 0 <= k < |v'.runs| ensures v'.runs[k].taskId == v'.state.active[k] && RunOk(journal, v', v'.runs[k]) {
      assert RunOk(journal, v, v.runs[if k < i then k else k + 1]);
    }
  }

  lemma BootDisciplined(w: World, bootId: Id, workers: int)
    requires Disciplined(w) && bootId != ""
    ensures Disciplined(w.(minted := w.minted + {bootId},
                           process := Up(Volatile(bootId, Hydrated(w.snapshot, workers), w.snapshotOrdered, [], [], []))))
  {
    var minted := w.minted + {bootId};
    Monotone(w.journal, w.snapshot, w.minted, minted);
    var s := Hydrated(w.snapshot, workers);
    forall c ensures CallOnce(w.journal, s, c) { assert CallOnce(w.journal, w.snapshot, c); }
    forall a ensures AttemptOnce(w.journal, s, a) { assert AttemptOnce(w.journal, w.snapshot, a); }
  }

  lemma BeginReconcileDisciplined(w: World)
    requires Disciplined(w) && w.process.Up?
    ensures var v := w.process.v;
            Disciplined(w.(process := Up(v.(pending := Interrupted(w.journal, Some(v.bootId))))))
  {
    var v := w.process.v;
    var v' := v.(pending := Interrupted(w.journal, Some(v.bootId)));
    FilterMembers(IsInterrupted(w.journal, Some(v.bootId)), w.journal);
    forall i, j | 0 <= i < j < |v'.pending| ensures v'.pending[i].attemptId != v'.pending[j].attemptId {
      var a := v'.pending[i].attemptId;
      assert AttemptOnce(w.journal, v.state, a);
      TallyFilter(StartsAttempt(a), IsInterrupted(w.journal, Some(v.bootId)), w.journal);
      if v'.pending[j].attemptId == a {
        TallyTwo(StartsAttempt(a), v'.pending, i, j);
      }
    }
    forall i | 0 <= i < |v'.runs| ensures v'.runs[i].taskId == v'.state.active[i] && RunOk(w.journal, v', v'.runs[i]) {
      assert RunOk(w.journal, v, v.runs[i]);
    }
  }

  /** No run of this boot belongs to a call that an earlier boot left open. */
  lemma PendingNotRunning(w: World, e: Entry, i: nat)
    requires Disciplined(w) && w.process.Up? && e in w.process.v.pending && i < |w.process.v.runs|
    ensures w.process.v.runs[i].callId != e.callId && w.process.v.state.active[i] == w.process.v.runs[i].taskId
  {
  }

  /** The process after a re-run was decided for the head of its pending list. */
  function AfterRerun(v: Volatile, newAttempt: Id): Volatile
    requires v.pending != []
  {
    v.(state := AfterDecision(v.state, v.pending[0], Rerun, newAttempt), ordered := false, pending := v.pending[1..])
  }

  lemma RerunKeepsRuns(w: World, row: Entry, newAttempt: Id)
    requires Disciplined(w) && w.process.Up? && w.process.v.pending != []
    requires w.process.v.pending[0].callId in w.process.v.state.requestIndex && row.bootId == w.process.v.bootId
    ensures var v, v' := w.process.v, AfterRerun(w.process.v, newAttempt);
            forall k :: 0 <= k < |v'.runs| ==>
              && v'.runs[k].taskId == v'.state.active[k] && v'.runs[k].taskId != v.state.requestIndex[v.pending[0].callId]
              && RunOk(w.journal + [row], v', v'.runs[k])
  {
    var v, v' := w.process.v, AfterRerun(w.process.v, newAttempt);
    assert v.pending[0] in v.pending;
    forall k | 0 <= k < |v'.runs|
      ensures v'.runs[k].taskId == v'.state.active[k] && v'.runs[k].taskId != v.state.requestIndex[v.pending[0].callId]
      ensures RunOk(w.journal + [row], v', v'.runs[k])
    {
      PendingNotRunning(w, v.pending[0], k);
      assert RunOk(w.journal, v, v.runs[k]);
      RunExtends(w.journal, row, v, v', v.runs[k]);
    }
  }

  lemma RerunKeepsScheduler(s: State, e: Entry, newAttempt: Id)
    requires SchedulerOk(s) && WellFormed(s) && e.callId in s.requestIndex
    requires s.requestIndex[e.callId] !in s.queue && s.requestIndex[e.callId] !in s.active
    ensures SchedulerOk(AfterDecision(s, e, Rerun, newAttempt))
  {
  }

  lemma RerunDisciplined(cfg: Config, w: World, answer: Answer, newAttempt: Id)
    requires Disciplined(w) && w.process.Up? && w.process.v.pending != [] && newAttempt !in w.minted
    requires Decide(cfg, w.process.v.state, w.process.v.pending[0], answer).Rerun?
    ensures Disciplined(DoReconcile(cfg, w, w.process.v, answer, newAttempt, true))
  {
    var v := w.process.v;
    var e := v.pending[0];
    assert e in v.pending;
    var row := SupersededEntry(v.bootId, e);
    var journal, minted := w.journal + [row], w.minted + {newAttempt};
    RerunOk(w.journal, v.state, e, v.bootId, newAttempt, w.minted);
    ClosingKeeps(w.journal, row, w.snapshot, w.minted);
    Monotone(journal, w.snapshot, w.minted, minted);
    RerunKeepsRuns(w, row, newAttempt);
    var id := v.state.requestIndex[e.callId];
    forall k | 0 <= k < |v.state.active| ensures v.state.active[k] != id {
      assert v.runs[k].taskId == v.state.active[k];
    }
    RerunKeepsScheduler(v.state, e, newAttempt);
    PendingAfter(w.journal, v, row, AfterRerun(v, newAttempt));
    assert VolatileOk(journal, AfterRerun(v, newAttempt), minted);
    assert DoReconcile(cfg, w, v, answer, newAttempt, true)
        == w.(journal := journal, lost := w.lost + [], minted := minted, process := Up(AfterRerun(v, newAttempt)));
  }

  /** A closing row for the head of the pending list leaves the rest of the list open. */
  lemma PendingAfter(journal: seq<Entry>, v: Volatile, row: Entry, v': Volatile)
    requires PendingOk(journal, v) && v.pending != [] && v'.bootId == v.bootId && v'.pending == v.pending[1..]
    requires row.attemptId == v.pending[0].attemptId
    ensures PendingOk(journal + [row], v')
  {
  }

  ghost predicate SameNames(s: State, s': State) {
    forall id :: id in s.tasks ==>
      id in s'.tasks && s'.tasks[id].requestId == s.tasks[id].requestId && s'.tasks[id].attemptId == s.tasks[id].attemptId
  }

  /** A report marks the task failed, if it is still known, and moves nothing. */
  lemma ReportKeepsState(journal: seq<Entry>, s: State, e: Entry, minted: set<Id>, ordered: bool)
    requires StateOk(journal, s, minted) && SchedulerOk(s) && (ordered ==> Sorted(s.tasks, s.queue))
    ensures var s' := AfterDecision(s, e, Reported, "");
            && StateOk(journal, s', minted) && SchedulerOk(s') && (ordered ==> Sorted(s'.tasks, s'.queue))
            && s'.active == s.active && SameNames(s, s')
  {
    var s' := AfterDecision(s, e, Reported, "");
    if TaskFor(s, e.callId).Some? {
      var id := s.requestIndex[e.callId];
      UpdateOk(journal, s, id, s'.tasks[id], minted);
      if ordered {
        RanksKept(s.tasks, s'.tasks, s.queue);
      }
    }
  }

  lemma ReportKeepsRuns(w: World, row: Entry, v': Volatile)
    requires Disciplined(w) && w.process.Up? && row.bootId == w.process.v.bootId && v'.bootId == row.bootId
    requires v'.runs == w.process.v.runs && v'.state.active == w.process.v.state.active
    requires SameNames(w.process.v.state, v'.state)
    ensures forall k :: 0 <= k < |v'.runs| ==> v'.runs[k].taskId == v'.state.active[k] && RunOk(w.journal + [row], v', v'.runs[k])
  {
    var v := w.process.v;
    forall k | 0 <= k < |v'.runs| ensures v'.runs[k].taskId == v'.state.active[k] && RunOk(w.journal + [row], v', v'.runs[k]) {
      assert RunOk(w.journal, v, v.runs[k]);
      RunExtends(w.journal, row, v, v', v.runs[k]);
    }
  }

  lemma ReportDisciplined(cfg: Config, w: World, answer: Answer, newAttempt: Id)
    requires Disciplined(w) && w.process.Up? && w.process.v.pending != [] && newAttempt !in w.minted
    requires Decide(cfg, w.process.v.state, w.process.v.pending[0], answer).Reported?
    ensures Disciplined(DoReconcile(cfg, w, w.process.v, answer, newAttempt, true))
  {
    var v := w.process.v;
    var e := v.pending[0];
    var row := ReconciledEntry(v.bootId, e);
    var journal, minted := w.journal + [row], w.minted + {newAttempt};
    var v' := v.(state := AfterDecision(v.state, e, Reported, ""), pending := v.pending[1..]);
    ReportKeepsState(w.journal, v.state, e, w.minted, v.ordered);
    ClosingKeeps(w.journal, row, v'.state, w.minted);
    ClosingKeeps(w.journal, row, w.snapshot, w.minted);
    Monotone(journal, v'.state, w.minted, minted);
    Monotone(journal, w.snapshot, w.minted, minted);
    ReportKeepsRuns(w, row, v');
    PendingAfter(w.journal, v, row, v');
    assert VolatileOk(journal, v', minted);
    assert DoReconcile(cfg, w, v, answer, newAttempt, true)
        == w.(journal := journal, lost := w.lost + [], minted := minted, process := Up(v'));
  }

  lemma UnreportedDisciplined(cfg: Config, w: World, answer: Answer, newAttempt: Id)
    requires Disciplined(w) && w.process.Up? && w.process.v.pending != [] && newAttempt !in w.minted
    requires Decide(cfg, w.process.v.state, w.process.v.pending[0], answer).Unreported?
    ensures Disciplined(DoReconcile(cfg, w, w.process.v, answer, newAttempt, true))
  {
    var v := w.process.v;
    var w' := DoReconcile(cfg, w, v, answer, newAttempt, true);
    var v' := w'.process.v;
    assert w'.journal == w.journal && v'.state == v.state;
    Monotone(w.journal, v.state, w.minted, w'.minted);
    Monotone(w.journal, w.snapshot, w.minted, w'.minted);
    forall k | 0 <= k < |v'.runs| ensures v'.runs[k].taskId == v'.state.active[k] && RunOk(w.journal, v', v'.runs[k]) {
      assert RunOk(w.journal, v, v.runs[k]);
    }
    forall e | e in v'.pending ensures e in v.pending {
      var k :| 0 <= k < |v'.pending| && v'.pending[k] == e;
      assert v.pending[k + 1] == e;
    }
  }

  lemma HeldDisciplined(w: World, w': World)
    requires Disciplined(w) && w.process.Up? && w'.process.Up?
    requires w'.journal == w.journal && w'.snapshot == w.snapshot && w'.snapshotOrdered == w.snapshotOrdered && w'.minted == w.minted
    requires var v, v' := w.process.v, w'.process.v;
             v'.bootId == v.bootId && v'.state == v.state && v'.ordered == v.ordered && v'.pending == v.pending
             && |v'.runs| == |v.runs| && forall i :: 0 <= i < |v.runs| ==>
               (v'.runs[i] == v.runs[i] || v'.runs[i] == v.runs[i].(phase := Invoked) || v'.runs[i] == v.runs[i].(phase := ResultSent))
    ensures Disciplined(w')
  {
  }

  predicate IsProcess(step: Step) {
    step.Deliver? || step.Crash? || step.Boot? || step.Save?
  }

  predicate IsInsertion(step: Step) {
    step.Accept? || step.Reject? || step.HttpAccept?
  }

  predicate IsPassive(step: Step) {
    step.Check? || step.Deduplicate? || step.AckHeld? || step.Invoke? || step.Send?
  }

  lemma InsertionDisciplined(cfg: Config, w: World, step: Step)
    requires Disciplined(w) && CalmStep(cfg, w, step) && NewTask(cfg, w, step).Some?
    requires NewTask(cfg, w, step).value.requestId !in w.process.v.state.requestIndex
    ensures Disciplined(Next(cfg, w, step))
  {
    var t := NewTask(cfg, w, step).value;
    if step.Reject? {
      RejectDisciplined(w, w.process.v, step, t);
    } else {
      QueueingDisciplined(w, w.process.v, step, t);
    }
  }

  lemma WorkDisciplined(cfg: Config, w: World, step: Step)
    requires Disciplined(w) && CalmStep(cfg, w, step) && Enabled(cfg, w, step)
    requires step.Finish? || step.Record? || step.Retire?
    ensures Disciplined(Next(cfg, w, step))
  {
    match step
    case Finish(i, execution) => FinishDisciplined(cfg, w, i, execution);
    case Record(i, _) => RecordDisciplined(cfg, w, i);
    case Retire(i) => RetireDisciplined(w, i);
  }

  lemma ReconcilingDisciplined(cfg: Config, w: World, step: Step)
    requires Disciplined(w) && CalmStep(cfg, w, step) && Enabled(cfg, w, step) && (step.BeginReconcile? || step.Reconcile?)
    ensures Disciplined(Next(cfg, w, step))
  {
    match step
    case BeginReconcile => BeginReconcileDisciplined(w);
    case Reconcile(answer, newAttempt, _) => DecisionDisciplined(cfg, w, answer, newAttempt);
  }

  lemma PassiveDisciplined(cfg: Config, w: World, step: Step)
    requires Disciplined(w) && Enabled(cfg, w, step)
    requires IsPassive(step)
    ensures Disciplined(Next(cfg, w, step))
  {
    HeldDisciplined(w, Next(cfg, w, step));
  }

  lemma ProcessDisciplined(cfg: Config, w: World, step: Step)
    requires Disciplined(w) && Enabled(cfg, w, step) && IsProcess(step)
    ensures Disciplined(Next(cfg, w, step))
  {
    match step
    case Deliver(_) =>
    case Crash =>
    case Boot(bootId, workers) => BootDisciplined(w, bootId, workers);
    case Save => SaveDisciplined(w, w.process.v);
  }

  lemma StepDisciplined(cfg: Config, w: World, step: Step)
    requires Disciplined(w) && CalmStep(cfg, w, step)
    requires var t := NewTask(cfg, w, step); t.Some? ==> t.value.requestId !in w.process.v.state.requestIndex
    ensures Disciplined(Next(cfg, w, step))
  {
    if Enabled(cfg, w, step) {
      if IsProcess(step) {
        ProcessDisciplined(cfg, w, step);
      } else if IsInsertion(step) {
        InsertionDisciplined(cfg, w, step);
      } else if IsPassive(step) {
        PassiveDisciplined(cfg, w, step);
      } else if step.Start? {
        StartDisciplined(cfg, w);
      } else if step.BeginReconcile? || step.Reconcile? {
        ReconcilingDisciplined(cfg, w, step);
      } else {
        WorkDisciplined(cfg, w, step);
      }
    }
  }

  lemma DecisionDisciplined(cfg: Config, w: World, answer: Answer, newAttempt: Id)
    requires Disciplined(w) && Enabled(cfg, w, Reconcile(answer, newAttempt, true))
    ensures Disciplined(DoReconcile(cfg, w, w.process.v, answer, newAttempt, true))
  {
    match Decide(cfg, w.process.v.state, w.process.v.pending[0], answer)
    case Rerun => RerunDisciplined(cfg, w, answer, newAttempt);
    case Reported => ReportDisciplined(cfg, w, answer, newAttempt);
    case Unreported => UnreportedDisciplined(cfg, w, answer, newAttempt);
  }

  /** In a calm run an insertion always finds its call unknown: this is what the duplicate check is for. */
  lemma CalmInsertsUnknown(cfg: Config, workers: int, steps: seq<Step>, step: Step)
    requires Calm(cfg, InitialWorld(workers), steps)
    ensures var w := Execute(cfg, InitialWorld(workers), steps); var t := NewTask(cfg, w, step);
            t.Some? ==> t.value.requestId !in w.process.v.state.requestIndex
  {
    var w := Execute(cfg, InitialWorld(workers), steps);
    CalmIsCareful(cfg, InitialWorld(workers), steps);
    RunKeepsBudget(cfg, workers, steps, "");
    NoStaleChecks(cfg, workers, steps);
    if NewTask(cfg, w, step).Some? {
      InsertsUnknown(cfg, w, step, "");
    }
  }

  lemma InitiallyDisciplined(workers: int)
    ensures Disciplined(InitialWorld(workers))
  {
    forall a ensures AttemptOnce([], EmptyState(workers), a) {}
    forall c ensures CallOnce([], EmptyState(workers), c) {}
  }

  lemma {:induction false} CalmRunsDisciplined(cfg: Config, workers: int, steps: seq<Step>)
    requires Calm(cfg, InitialWorld(workers), steps)
    ensures Disciplined(Execute(cfg, InitialWorld(workers), steps))
    decreases |steps|
  {
    if steps == [] {
      InitiallyDisciplined(workers);
    } else {
      var init, last := steps[..|steps| - 1], steps[|steps| - 1];
      CalmRunsDisciplined(cfg, workers, init);
      CalmInsertsUnknown(cfg, workers, init, last);
      StepDisciplined(cfg, Execute(cfg, InitialWorld(workers), init), last);
    }
  }

  // ------------------------------------------------------------------ what follows from it

  /**
   In every reachable durable state an attempt id has at most one start row, a call has at most
   one open attempt, and a call open in the journal is not in the queue the next boot hydrates.
   */
  lemma {:induction false} DurableStateIsConsistent(cfg: Config, workers: int, steps: seq<Step>, a: Id, c: Id)
    requires Calm(cfg, InitialWorld(workers), steps)
    ensures var w := Execute(cfg, InitialWorld(workers), steps);
            StartRows(w.journal, a) <= 1 && OpenAttempts(w.journal, c) + QueuedTimes(w.snapshot, c) <= 1
  {
    CalmRunsDisciplined(cfg, workers, steps);
    var w := Execute(cfg, InitialWorld(workers), steps);
    assert AttemptOnce(w.journal, w.snapshot, a) && CallOnce(w.journal, w.snapshot, c);
  }

  /** What an earlier boot left open is never queued or running in this one, until it is superseded. */
  lemma {:induction false} InterruptedIsIdle(cfg: Config, workers: int, steps: seq<Step>, e: Entry)
    requires Calm(cfg, InitialWorld(workers), steps)
    requires var w := Execute(cfg, InitialWorld(workers), steps);
             w.process.Up? && e in Interrupted(w.journal, Some(w.process.v.bootId))
    ensures var w := Execute(cfg, InitialWorld(workers), steps);
            && QueuedTimes(w.process.v.state, e.callId) == 0 && QueuedTimes(w.snapshot, e.callId) == 0
            && forall i :: 0 <= i < |w.process.v.runs| ==> w.process.v.runs[i].callId != e.callId
  {
    CalmRunsDisciplined(cfg, workers, steps);
    var w := Execute(cfg, InitialWorld(workers), steps);
    var v := w.process.v;
    FilterMembers(IsInterrupted(w.journal, Some(v.bootId)), w.journal);
    OpenIsCounted(w.journal, v.state, w.minted, e);
    OpenIsCounted(w.journal, w.snapshot, w.minted, e);
    forall i | 0 <= i < |v.runs| ensures v.runs[i].callId != e.callId {
      assert RunOk(w.journal, v, v.runs[i]);
    }
  }

  /** The scheduler's shape holds in every reachable state, whatever is interleaved. */
  lemma {:induction false} SchedulerStaysInShape(cfg: Config, workers: int, steps: seq<Step>)
    requires Calm(cfg, InitialWorld(workers), steps)
    ensures var w := Execute(cfg, InitialWorld(workers), steps); w.process.Up? ==> SchedulerOk(w.process.v.state)
  {
    CalmRunsDisciplined(cfg, workers, steps);
  }

  /** Unless a re-run was pushed since the queue was last sorted, the next task to start has minimal rank among all that wait. */
  lemma {:induction false} StartsTheFirst(cfg: Config, workers: int, steps: seq<Step>, id: Id)
    requires Calm(cfg, InitialWorld(workers), steps)
    requires var w := Execute(cfg, InitialWorld(workers), steps);
             w.process.Up? && w.process.v.ordered && id in w.process.v.state.queue
    ensures var s := Execute(cfg, InitialWorld(workers), steps).process.v.state;
            s.queue[0] in s.tasks && id in s.tasks && s.tasks[s.queue[0]].priority <= s.tasks[id].priority && NotAfter(s.tasks, s.queue[0], id)
  {
    CalmRunsDisciplined(cfg, workers, steps);
    var s := Execute(cfg, InitialWorld(workers), steps).process.v.state;
    var k :| 0 <= k < |s.queue| && s.queue[k] == id;
    assert k > 0 ==> NotAfter(s.tasks, s.queue[0], s.queue[k]);
  }

  /** In calm runs nothing but superseded rows buys a call another execution. */
  lemma {:induction false} CalmInvocationsBounded(cfg: Config, workers: int, steps: seq<Step>, c: Id)
    requires Calm(cfg, InitialWorld(workers), steps)
    ensures var w := Execute(cfg, InitialWorld(workers), steps); Invocations(w, c) <= 1 + SupersededRows(w, c)
  {
    CalmIsCareful(cfg, InitialWorld(workers), steps);
    InvocationsBounded(cfg, workers, steps, c);
    NoStaleChecks(cfg, workers, steps);
    NothingLost(cfg, workers, steps);
  }

  lemma {:induction false} NothingLost(cfg: Config, workers: int, steps: seq<Step>)
    requires Calm(cfg, InitialWorld(workers), steps)
    ensures Execute(cfg, InitialWorld(workers), steps).lost == []
    decreases |steps|
  {
    if steps != [] {
      NothingLost(cfg, workers, steps[..|steps| - 1]);
      WritableLosesNothing(cfg, Execute(cfg, InitialWorld(workers), steps[..|steps| - 1]), steps[|steps| - 1]);
    }
  }

  lemma WritableLosesNothing(cfg: Config, w: World, step: Step)
    requires w.lost == [] && (step.Reconcile? ==> step.appended)
    ensures Next(cfg, w, step).lost == []
  {
  }
}
