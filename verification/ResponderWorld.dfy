/**
 The responder with everything that survives it: the journal, the last saved snapshot, the inbox
 queue of the transport hub, and a process that can die between any two steps. A step stands
 for the code between two awaits; saving is a step of its own, so a crash can fall between a
 start row and the snapshot that reflects it.
 */
module ResponderWorld {
  import opened Collections
  import opened ExecutionJournal
  import opened LocalHub
  import opened ResponderState
  import opened ResponderTasks
  import ResultBuilder

  /**
   One execution under way: its start not yet in a snapshot, ready to invoke the executor, past
   that, and then result set, result sent, terminal row written.
   */
  datatype Phase = Unsaved | Ready | Invoked | ResultSet | ResultSent | RowWritten

  /** `started` is the record the run took off the queue, for a run whose task was replaced in the table. */
  datatype Run = Run(taskId: Id, callId: Id, started: Task, phase: Phase)

  /** What an inbox pass did with an envelope it took up: checked it, inserted its task, or settled it in a snapshot. */
  datatype Stage = Checked | Inserted | Cleared

  datatype Held = Held(env: TaskEnvelope, callId: Id, stage: Stage)

  /** `held` is what all passes under way hold; `ordered` records that nothing was pushed behind the queue's order since the last sort. */
  datatype Volatile = Volatile(
    bootId: Id,
    state: State,
    ordered: bool,
    runs: seq<Run>,
    pending: seq<Entry>,
    held: seq<Held>)

  datatype Process = Down | Up(v: Volatile)

  /**
   `invoked`, `sent` (attempts), `stale` (insertions of a known request), `lost` (superseded rows the
   journal lost), `delivered` and `acked` are history; `minted` is every identifier drawn or named so far.
   */
  datatype World = World(
    journal: seq<Entry>,
    snapshot: State,
    snapshotOrdered: bool,
    process: Process,
    inbox: seq<TaskEnvelope>,
    delivered: seq<TaskEnvelope>,
    acked: seq<Held>,
    invoked: seq<Id>,
    sent: seq<Id>,
    stale: seq<Id>,
    lost: seq<Id>,
    minted: set<Id>)

  datatype Step =
    | Deliver(env: TaskEnvelope)
    | Crash
    | Boot(bootId: Id, workers: int)
    | Save
    | Check(env: TaskEnvelope)
    | Deduplicate(env: TaskEnvelope)
    | Accept(k: nat, ids: FreshIds, now: int, saved: bool)
    | Reject(k: nat, ids: FreshIds, now: int, code: string)
    | HttpAccept(env: TaskEnvelope, ids: FreshIds, now: int, saved: bool)
    | AckHeld(k: nat)
    | Start(appended: bool, saved: bool)
    | LoseRun(i: nat)
    | Invoke(i: nat)
    | Finish(i: nat, execution: ResultBuilder.Execution)
    | Send(i: nat)
    | Record(i: nat, appended: bool)
    | Retire(i: nat)
    | BeginReconcile
    | Reconcile(answer: Answer, newAttempt: Id, appended: bool)

  function InitialWorld(workers: int): World {
    World([], EmptyState(workers), true, Down, [], [], [], [], [], [], [], {})
  }

  // -------------------------------------------------------------------------- guards

  predicate Unused(minted: set<Id>, ids: FreshIds) {
    && ids.taskId !in minted && ids.requestId !in minted && ids.attemptId !in minted
    && ids.taskId != ids.requestId && ids.taskId != ids.attemptId && ids.requestId != ids.attemptId
    && ids.taskId != "" && ids.requestId != "" && ids.attemptId != ""
  }

  /** A pass takes up an envelope addressed to this responder; nothing keeps two passes from taking up the same one. */
  predicate CanTake(cfg: Config, w: World, env: TaskEnvelope) {
    w.process.Up? && env in w.inbox && Addressed(env, cfg.identity)
  }

  predicate Holds(w: World, k: nat, stage: Stage) {
    w.process.Up? && k < |w.process.v.held| && w.process.v.held[k].stage == stage
  }

  predicate CanInsert(cfg: Config, w: World, ids: FreshIds) {
    cfg.identity.hotlineIds != [] && Unused(w.minted, ids)
  }

  predicate InPhase(w: World, i: nat, phases: set<Phase>) {
    w.process.Up? && i < |w.process.v.runs| && w.process.v.runs[i].phase in phases
  }

  predicate Enabled(cfg: Config, w: World, step: Step) {
    match step
    case Deliver(env) => forall d :: d in w.delivered && d.messageId == env.messageId ==> d == env
    case Crash => w.process.Up?
    case Boot(bootId, _) => w.process.Down? && bootId != "" && bootId !in w.minted
    case Save => w.process.Up?
    case Check(env) => CanTake(cfg, w, env) && !Duplicate(w.process.v.state, env)
    case Deduplicate(env) => CanTake(cfg, w, env) && Duplicate(w.process.v.state, env)
    case Accept(k, ids, _, _) => Holds(w, k, Checked) && CanInsert(cfg, w, ids)
    case Reject(k, ids, _, _) => Holds(w, k, Checked) && CanInsert(cfg, w, ids)
    case HttpAccept(env, ids, _, _) => w.process.Up? && !Duplicate(w.process.v.state, env) && CanInsert(cfg, w, ids)
    case AckHeld(k) => Holds(w, k, Cleared)
    case Start(_, _) =>
      w.process.Up? && w.process.v.state.queue != [] && |w.process.v.state.active| < MaxWorkers(None, w.process.v.state.workers)
    case LoseRun(i) => InPhase(w, i, {Unsaved})
    case Invoke(i) => InPhase(w, i, {Ready})
    case Finish(i, _) => InPhase(w, i, {Ready, Invoked, ResultSet, ResultSent, RowWritten})
    case Send(i) => InPhase(w, i, {ResultSet})
    case Record(i, _) => InPhase(w, i, {ResultSent})
    case Retire(i) => InPhase(w, i, {Invoked, RowWritten})
    case BeginReconcile => w.process.Up?
    case Reconcile(_, newAttempt, _) => w.process.Up? && w.process.v.pending != [] && newAttempt != "" && newAttempt !in w.minted
  }

  // ------------------------------------------------------------------------- effects

  function SavedRun(r: Run): Run {
    if r.phase == Unsaved then r.(phase := Ready) else r
  }

  function SavedRuns(runs: seq<Run>): seq<Run> {
    seq(|runs|, i requires 0 <= i < |runs| => SavedRun(runs[i]))
  }

  function SavedHeld(h: Held): Held {
    if h.stage == Inserted then h.(stage := Cleared) else h
  }

  function SavedHelds(held: seq<Held>): seq<Held> {
    seq(|held|, k requires 0 <= k < |held| => SavedHeld(held[k]))
  }

  /** The snapshot is overwritten with the current state; whoever waited for the save goes on. */
  function SaveNow(w: World, v: Volatile): World {
    w.(snapshot := v.state, snapshotOrdered := v.ordered, process := Up(v.(runs := SavedRuns(v.runs), held := SavedHelds(v.held))))
  }

  function Continue(w: World, v: Volatile, saved: bool): World {
    if saved then SaveNow(w, v) else w.(process := Up(v))
  }

  /** A request that is already known when its task is inserted: the duplicate check was stale. */
  function StaleCheck(s: State, callId: Id): seq<Id> {
    if callId in s.requestIndex then [callId] else []
  }

  /** What an insertion leaves behind besides the task. */
  function Noted(w: World, s: State, t: Task): World {
    w.(stale := w.stale + StaleCheck(s, t.requestId), minted := w.minted + {t.taskId, t.requestId, t.attemptId})
  }

  /** The pass that holds the k-th envelope goes on to wait for the save. */
  function Waiting(held: seq<Held>, k: nat, callId: Id): seq<Held>
    requires k < |held|
  {
    held[k := held[k].(callId := callId, stage := Inserted)]
  }

  /** The task a step inserts: queued, or rejected with its result. */
  function NewTask(cfg: Config, w: World, step: Step): Option<Task> {
    if !Enabled(cfg, w, step) then None else
      match step
      case Accept(k, ids, now, _) => Some(CreateTask(w.process.v.held[k].env, cfg.identity, ids, now))
      case HttpAccept(env, ids, now, _) => Some(CreateTask(env, cfg.identity, ids, now))
      case Reject(k, ids, now, code) =>
        Some(ResultBuilder.RejectTask(cfg.signer, CreateTask(w.process.v.held[k].env, cfg.identity, ids, now), code))
      case _ => None
  }

  /** The insertion itself: a rejected task is remembered, any other queued; a pass then waits for the save. */
  function Inserting(v: Volatile, step: Step, t: Task): Volatile
    requires step.Accept? || step.Reject? ==> step.k < |v.held|
  {
    var state := if step.Reject? then Remember(v.state, t) else Enqueue(v.state, t);
    var held := if step.Accept? || step.Reject? then Waiting(v.held, step.k, t.requestId) else v.held;
    v.(state := state, ordered := v.ordered || !step.Reject?, held := held)
  }

  function SavesAtOnce(step: Step): bool {
    (step.Accept? || step.HttpAccept?) && step.saved
  }

  function DoStart(cfg: Config, w: World, v: Volatile, appended: bool, saved: bool): World
    requires v.state.queue != []
  {
    var id := v.state.queue[0];
    if id !in v.state.tasks then w.(process := Up(v.(state := StartHead(cfg, v.state)))) else
      var t := v.state.tasks[id];
      Continue(
        w.(journal := w.journal + (if appended then [StartEntry(cfg, v.bootId, t)] else [])),
        v.(state := StartHead(cfg, v.state), runs := v.runs + [Run(id, t.requestId, t, Unsaved)]),
        saved)
  }

  /** Whether the table still holds the record a run works on. */
  predicate Current(s: State, r: Run) {
    r.taskId in s.tasks && s.tasks[r.taskId].requestId == r.callId
  }

  function RecordOf(s: State, r: Run): Task {
    if Current(s, r) then s.tasks[r.taskId] else r.started
  }

  function AtPhase(v: Volatile, i: nat, phase: Phase): Volatile
    requires i < |v.runs|
  {
    v.(runs := v.runs[i := v.runs[i].(phase := phase)])
  }

  /** The result is set on the record of the run. */
  function DoFinish(cfg: Config, v: Volatile, i: nat, execution: ResultBuilder.Execution): Volatile
    requires i < |v.runs|
  {
    var r := v.runs[i];
    var t := ResultBuilder.FinishTask(cfg.signer, RecordOf(v.state, r), execution);
    if Current(v.state, r)
    then AtPhase(v, i, ResultSet).(state := v.state.(tasks := v.state.tasks[r.taskId := t]))
    else v.(runs := v.runs[i := r.(started := t, phase := ResultSet)])
  }

  function DoReconcile(cfg: Config, w: World, v: Volatile, answer: Answer, newAttempt: Id, appended: bool): World
    requires v.pending != []
  {
    var e := v.pending[0];
    var d := Decide(cfg, v.state, e, answer);
    w.(journal := w.journal + (if appended then DecisionEntries(v.bootId, e, d) else []),
       lost := w.lost + (if d.Rerun? && !appended then [e.callId] else []),
       minted := w.minted + {newAttempt},
       process := Up(v.(state := AfterDecision(v.state, e, d, newAttempt), ordered := v.ordered && !d.Rerun?, pending := v.pending[1..])))
  }

  function DoInsert(w: World, step: Step, t: Task): World
    requires w.process.Up? && (step.Accept? || step.Reject? ==> step.k < |w.process.v.held|)
  {
    Continue(Noted(w, w.process.v.state, t), Inserting(w.process.v, step, t), SavesAtOnce(step))
  }

  /** A disabled step changes nothing, so every sequence of steps is a run. */
  function Next(cfg: Config, w: World, step: Step): World {
    if !Enabled(cfg, w, step) then w else
      match step
      case Deliver(env) => w.(inbox := w.inbox + [env], delivered := w.delivered + [env])
      case Crash => w.(process := Down)
      case Boot(bootId, workers) =>
        w.(minted := w.minted + {bootId},
           process := Up(Volatile(bootId, Hydrated(w.snapshot, workers), w.snapshotOrdered, [], [], [])))
      case Save => SaveNow(w, w.process.v)
      case Check(env) => w.(process := Up(w.process.v.(held := w.process.v.held + [Held(env, "", Checked)])))
      case Deduplicate(env) => w.(process := Up(w.process.v.(held := w.process.v.held + [Held(env, env.requestId.value, Cleared)])))
      case Accept(_, _, _, _) => DoInsert(w, step, NewTask(cfg, w, step).value)
      case Reject(_, _, _, _) => DoInsert(w, step, NewTask(cfg, w, step).value)
      case HttpAccept(_, _, _, _) => DoInsert(w, step, NewTask(cfg, w, step).value)
      case AckHeld(k) =>
        var v := w.process.v;
        w.(inbox := RemoveFirst(TaskMessageId, w.inbox, v.held[k].env.messageId), acked := w.acked + [v.held[k]],
           process := Up(v.(held := v.held[..k] + v.held[k + 1..])))
      case Start(appended, saved) => DoStart(cfg, w, w.process.v, appended, saved)
      case LoseRun(i) =>
        var v := w.process.v;
        w.(process := Up(v.(runs := v.runs[..i] + v.runs[i + 1..])))
      case Invoke(i) => w.(invoked := w.invoked + [w.process.v.runs[i].callId], process := Up(AtPhase(w.process.v, i, Invoked)))
      case Finish(i, execution) => w.(process := Up(DoFinish(cfg, w.process.v, i, execution)))
      case Send(i) =>
        var v := w.process.v;
        w.(sent := w.sent + [RecordOf(v.state, v.runs[i]).attemptId], process := Up(AtPhase(v, i, ResultSent)))
      case Record(i, appended) =>
        var v := w.process.v;
        w.(journal := w.journal + (if appended then [TerminalEntry(v.bootId, RecordOf(v.state, v.runs[i]))] else []),
           process := Up(AtPhase(v, i, RowWritten)))
      case Retire(i) =>
        var v := w.process.v;
        w.(process := Up(v.(state := Retired(v.state, v.runs[i].taskId), runs := v.runs[..i] + v.runs[i + 1..])))
      case BeginReconcile =>
        var v := w.process.v;
        w.(process := Up(v.(pending := Interrupted(w.journal, Some(v.bootId)))))
      case Reconcile(answer, newAttempt, appended) => DoReconcile(cfg, w, w.process.v, answer, newAttempt, appended)
  }

  function Execute(cfg: Config, w: World, steps: seq<Step>): World
    decreases |steps|
  {
    if steps == [] then w else Next(cfg, Execute(cfg, w, steps[..|steps| - 1]), steps[|steps| - 1])
  }

  // ------------------------------------------------------------------- rules over runs

  /** What a run is asked to respect at each of its steps. */
  type Rule = (World, Step) -> bool

  ghost predicate Throughout(cfg: Config, w: World, steps: seq<Step>, rule: Rule)
    decreases |steps|
  {
    steps != [] ==>
      var init := steps[..|steps| - 1];
      Throughout(cfg, w, init, rule) && rule(Execute(cfg, w, init), steps[|steps| - 1])
  }

  lemma {:induction false} ThroughoutWeaker(cfg: Config, w: World, steps: seq<Step>, rule: Rule, weaker: Rule)
    requires Throughout(cfg, w, steps, rule) && forall x, step :: rule(x, step) ==> weaker(x, step)
    ensures Throughout(cfg, w, steps, weaker)
    decreases |steps|
  {
    if steps != [] {
      ThroughoutWeaker(cfg, w, steps[..|steps| - 1], rule, weaker);
    }
  }

  lemma ExecuteSnoc(cfg: Config, w: World, steps: seq<Step>, step: Step)
    ensures Execute(cfg, w, steps + [step]) == Next(cfg, Execute(cfg, w, steps), step)
  {
    assert (steps + [step])[..|steps|] == steps;
  }

  lemma ThroughoutSnoc(cfg: Config, w: World, steps: seq<Step>, step: Step, rule: Rule)
    ensures Throughout(cfg, w, steps + [step], rule) <==> Throughout(cfg, w, steps, rule) && rule(Execute(cfg, w, steps), step)
  {
    assert (steps + [step])[..|steps|] == steps;
  }

  /** The executor is invoked by one kind of step only. */
  lemma OnlyInvokeInvokes(cfg: Config, w: World, step: Step)
    ensures Next(cfg, w, step).invoked
         == if step.Invoke? && Enabled(cfg, w, step) then w.invoked + [w.process.v.runs[step.i].callId] else w.invoked
  {
  }

  /** A task id the sender names is not one the table already holds. */
  predicate NamesFreshTask(cfg: Config, w: World, step: Step) {
    var t := NewTask(cfg, w, step);
    t.Some? ==> t.value.taskId !in w.process.v.state.tasks
  }

  /** No other pass has checked, and not yet inserted, the call this step inserts. */
  predicate Undisturbed(cfg: Config, w: World, step: Step) {
    var t := NewTask(cfg, w, step);
    t.Some? ==> forall j :: 0 <= j < |w.process.v.held| && ChecksFor(w.process.v.held[j], t.value.requestId) ==>
      (step.Accept? || step.Reject?) && step.k == j
  }

  predicate ChecksFor(h: Held, callId: Id) {
    h.stage == Checked && h.env.requestId == Some(callId)
  }

  function Fresh(cfg: Config): Rule {
    (w: World, step: Step) => NamesFreshTask(cfg, w, step)
  }

  function Careful(cfg: Config): Rule {
    (w: World, step: Step) => NamesFreshTask(cfg, w, step) && Undisturbed(cfg, w, step)
  }

  // ---------------------------------------------------------------- facts about states

  ghost predicate WellFormed(s: State) {
    && AllKnown(s.tasks, s.queue)
    && (forall c :: c in s.requestIndex ==> s.requestIndex[c] in s.tasks && s.tasks[s.requestIndex[c]].requestId == c)
    && (forall id :: id in s.tasks ==> s.tasks[id].taskId == id)
  }

  function ForCall(tasks: map<Id, Task>, c: Id): Id -> bool {
    (id: Id) => id in tasks && tasks[id].requestId == c
  }

  /** How often a call is in the queue. */
  function QueuedTimes(s: State, c: Id): nat {
    Tally(ForCall(s.tasks, c), s.queue)
  }

  function One(b: bool): nat {
    if b then 1 else 0
  }

  lemma RememberKeeps(s: State, t: Task, c: Id)
    requires WellFormed(s) && t.taskId !in s.tasks
    ensures WellFormed(Remember(s, t)) && QueuedTimes(Remember(s, t), c) == QueuedTimes(s, c)
  {
    TallyCongruent(ForCall(s.tasks, c), ForCall(Remember(s, t).tasks, c), s.queue);
  }

  lemma EnqueueCounts(s: State, t: Task, c: Id)
    requires WellFormed(s) && t.taskId !in s.tasks
    ensures WellFormed(Enqueue(s, t)) && QueuedTimes(Enqueue(s, t), c) == QueuedTimes(s, c) + One(t.requestId == c)
  {
    RememberKeeps(s, t, c);
    var r := Remember(s, t);
    SortTally(ForCall(r.tasks, c), r.tasks, s.queue + [t.taskId]);
    TallySnoc(ForCall(r.tasks, c), s.queue, t.taskId);
    SortMembers(r.tasks, s.queue + [t.taskId]);
  }

  lemma StartCounts(cfg: Config, s: State, c: Id)
    requires WellFormed(s) && s.queue != []
    ensures WellFormed(StartHead(cfg, s))
    ensures QueuedTimes(StartHead(cfg, s), c) + One(s.tasks[s.queue[0]].requestId == c) == QueuedTimes(s, c)
  {
    var s' := StartHead(cfg, s);
    TallyHead(ForCall(s.tasks, c), s.queue);
    TallyCongruent(ForCall(s.tasks, c), ForCall(s'.tasks, c), s.queue[1..]);
  }

  /** Replacing a task by another of the same id and call changes nothing that is counted. */
  lemma UpdateCounts(s: State, id: Id, t: Task, c: Id)
    requires WellFormed(s) && id in s.tasks && t.taskId == id && t.requestId == s.tasks[id].requestId
    ensures WellFormed(s.(tasks := s.tasks[id := t])) && QueuedTimes(s.(tasks := s.tasks[id := t]), c) == QueuedTimes(s, c)
  {
    TallyCongruent(ForCall(s.tasks, c), ForCall(s.tasks[id := t], c), s.queue);
  }

  lemma DecisionCounts(s: State, e: Entry, d: Decision, newAttempt: Id, c: Id)
    requires WellFormed(s)
    ensures WellFormed(AfterDecision(s, e, d, newAttempt))
    ensures QueuedTimes(AfterDecision(s, e, d, newAttempt), c) <= QueuedTimes(s, c) + One(d.Rerun? && e.callId == c)
    ensures AfterDecision(s, e, d, newAttempt).requestIndex == s.requestIndex
    ensures AfterDecision(s, e, d, newAttempt).tasks.Keys == s.tasks.Keys
  {
    if TaskFor(s, e.callId).Some? && !d.Unreported? {
      var id := s.requestIndex[e.callId];
      var t' := AfterDecision(s, e, d, newAttempt).tasks[id];
      UpdateCounts(s, id, t', c);
      TallySnoc(ForCall(s.tasks[id := t'], c), s.queue, id);
    }
  }

  /** What an insertion does, whichever way it is stored: one task more, and nothing else but what is held. */
  lemma InsertionEffect(cfg: Config, w: World, step: Step)
    requires NewTask(cfg, w, step).Some?
    ensures var v, t, w' := w.process.v, NewTask(cfg, w, step).value, Next(cfg, w, step);
            && w' == DoInsert(w, step, t) && w'.process.Up? && w'.process.v.state == Inserting(v, step, t).state
            && w'.process.v.runs == (if SavesAtOnce(step) then SavedRuns(v.runs) else v.runs)
            && w'.journal == w.journal && w'.invoked == w.invoked && w'.minted == w.minted + {t.taskId, t.requestId, t.attemptId}
  {
  }

  /** What is held afterwards: the inserting pass has moved on, and no other pass checks anything new. */
  lemma InsertionHolds(cfg: Config, w: World, step: Step, h: Held)
    requires NewTask(cfg, w, step).Some? && h in Next(cfg, w, step).process.v.held && h.stage == Checked
    ensures exists j :: 0 <= j < |w.process.v.held| && w.process.v.held[j] == h && (step.HttpAccept? || step.k != j)
  {
    InsertionEffect(cfg, w, step);
    var v, v' := w.process.v, Inserting(w.process.v, step, NewTask(cfg, w, step).value);
    var held := Next(cfg, w, step).process.v.held;
    assert held == if SavesAtOnce(step) then SavedHelds(v'.held) else v'.held;
    var j :| 0 <= j < |held| && held[j] == h;
    assert v'.held[j] == h;
  }
}
