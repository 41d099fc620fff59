/**
 The responder runtime as an object: the table of tasks, the request index, the queue and the
 active set are fields that every operation assigns, beside the journal and the snapshot table
 it writes to. Each method is one stretch of code between two awaits.
 */
module ResponderRuntime {
  import opened Collections
  import opened ExecutionJournal
  import opened LocalHub
  import opened Reconciliation
  import opened ResponderState
  import opened ResponderTasks
  import opened ResponderWorld
  import opened Results
  import opened SnapshotStore
  import ResultBuilder

  /** What reaches the journal: entries it refuses are dropped without a word. */
  function Recordable(entries: seq<Entry>): seq<Entry> {
    Filter(Complete, entries)
  }

  // ------------------------------------------------------------ what one scheduling pass does

  function Known(tasks: map<Id, Task>): Id -> bool {
    (id: Id) => id in tasks
  }

  lemma {:induction false} PassKeeps(cfg: Config, s: State, maxWorkers: int)
    ensures var s' := Scheduled(cfg, s, maxWorkers);
            && s'.tasks.Keys == s.tasks.Keys && s'.requestIndex == s.requestIndex
            && (s'.queue == [] || |s'.active| >= maxWorkers)
            && (|s'.active| <= maxWorkers || s' == s)
    decreases |s.queue|
  {
    if |s.active| < maxWorkers && s.queue != [] {
      PassKeeps(cfg, StartHead(cfg, s), maxWorkers);
    }
  }

  lemma {:induction false} PassTakes(cfg: Config, s: State, maxWorkers: int) returns (n: nat)
    ensures n <= |s.queue|
    ensures var s' := Scheduled(cfg, s, maxWorkers);
            s'.queue == s.queue[n..] && s'.active == s.active + Filter(Known(s.tasks), s.queue[..n])
    decreases |s.queue|
  {
    if |s.active| >= maxWorkers || s.queue == [] {
      n := 0;
      assert s.active + [] == s.active;
    } else {
      var next := StartHead(cfg, s);
      var m := PassTakes(cfg, next, maxWorkers);
      n := m + 1;
      KnownPrefix(s.tasks, next.tasks, s.queue, m);
    }
  }

  /**
   A scheduling pass takes a prefix off the queue, starts exactly the known tasks in it, in order
   and with one start row each, and stops only when the queue is empty or the workers are full.
   */
  lemma PassTakesPrefix(cfg: Config, s: State, maxWorkers: int) returns (n: nat)
    ensures n <= |s.queue|
    ensures var s' := Scheduled(cfg, s, maxWorkers);
            && s'.queue == s.queue[n..] && s'.active == s.active + Filter(Known(s.tasks), s.queue[..n])
            && s'.tasks.Keys == s.tasks.Keys && s'.requestIndex == s.requestIndex
            && (s'.queue == [] || |s'.active| >= maxWorkers)
            && (|s'.active| <= maxWorkers || s' == s)
  {
    PassKeeps(cfg, s, maxWorkers);
    n := PassTakes(cfg, s, maxWorkers);
  }

  lemma KnownPrefix(tasks: map<Id, Task>, tasks': map<Id, Task>, queue: seq<Id>, m: nat)
    requires queue != [] && m + 1 <= |queue| && tasks.Keys == tasks'.Keys
    ensures Filter(Known(tasks), queue[..m + 1])
         == (if queue[0] in tasks then [queue[0]] else []) + Filter(Known(tasks'), queue[1..][..m])
  {
    var rest := queue[1..][..m];
    assert queue[..m + 1] == [queue[0]] + rest;
    FilterConcat(Known(tasks), [queue[0]], rest);
    FilterSnoc(Known(tasks), [], queue[0]);
    assert [] + [queue[0]] == [queue[0]];
    FilterCongruent(Known(tasks), Known(tasks'), rest);
  }

  /** The start rows of a pass are one for each task it starts. */
  lemma OneRowEach(cfg: Config, bootId: Id, s: State, maxWorkers: int)
    ensures |ScheduledEntries(cfg, bootId, s, maxWorkers)| == |Scheduled(cfg, s, maxWorkers).active| - |s.active|
    decreases |s.queue|
  {
    if |s.active| < maxWorkers && s.queue != [] {
      OneRowEach(cfg, bootId, StartHead(cfg, s), maxWorkers);
    }
  }

  /** The row that begins a run, and what it leaves of the task. */
  predicate BeginsRun(cfg: Config, row: Entry, bootId: Id, t: Task, t': Task) {
    && row.entryType == Started && row.bootId == bootId && row.callId == t.requestId && row.attemptId == t.attemptId
    && row.hotlineId == Some(t.hotlineId) && row.recoverability == cfg.classOf(t.hotlineId, t.recoverability)
    && t' == t.(status := Running, recoverability := row.recoverability)
  }

  /** The row that ends a run says delivered for an ok package, and failed for any other. */
  predicate EndsRun(row: Entry, bootId: Id, t: Task) {
    && row.entryType == Terminal && row.bootId == bootId && row.callId == t.requestId && row.attemptId == t.attemptId
    && row.recoverability == t.recoverability
    && (row.observed == Some(Delivered) <==> t.resultPackage.Some? && t.resultPackage.value.status == Ok)
    && (row.observed == Some(ExecutionFailed) <==> !(t.resultPackage.Some? && t.resultPackage.value.status == Ok))
  }

  /** Row by row, the runs of these tasks begin. */
  predicate RowsBegin(cfg: Config, bootId: Id, s: State, s': State, rows: seq<Entry>, started: seq<Id>) {
    && |rows| == |started| && (forall j :: 0 <= j < |rows| ==> started[j] in s.tasks && started[j] in s'.tasks)
    && forall j :: 0 <= j < |rows| ==> BeginsRun(cfg, rows[j], bootId, s.tasks[started[j]], s'.tasks[started[j]])
  }

  /** Of the tasks at the front of the queue the known ones run under the class their row records, row by row, and no other has changed. */
  ghost predicate FrontRecorded(cfg: Config, bootId: Id, s: State, s': State, rows: seq<Entry>, front: seq<Id>) {
    var started := Filter(Known(s.tasks), front);
    && s'.tasks.Keys == s.tasks.Keys && RowsBegin(cfg, bootId, s, s', rows, started)
    && forall id :: id in s.tasks && id !in front ==> s'.tasks[id] == s.tasks[id]
  }

  /**
   A pass over a queue without repetitions takes a front off it: the known tasks of the front are
   running under the class their start row records, in queue order, and every other is as it was.
   */
  lemma {:induction false} StartedAreRecorded(cfg: Config, bootId: Id, s: State, maxWorkers: int) returns (n: nat)
    requires NoDuplicates(s.queue)
    ensures n <= |s.queue| && Scheduled(cfg, s, maxWorkers).queue == s.queue[n..]
    ensures FrontRecorded(cfg, bootId, s, Scheduled(cfg, s, maxWorkers), ScheduledEntries(cfg, bootId, s, maxWorkers), s.queue[..n])
    decreases |s.queue|
  {
    if |s.active| >= maxWorkers || s.queue == [] {
      n := 0;
    } else {
      var next := StartHead(cfg, s);
      var m := StartedAreRecorded(cfg, bootId, next, maxWorkers);
      n := m + 1;
      var rest := next.queue[..m];
      assert s.queue[..n] == [s.queue[0]] + rest && s.queue[0] !in rest;
      HeadIsRecorded(cfg, bootId, s, Scheduled(cfg, next, maxWorkers), ScheduledEntries(cfg, bootId, next, maxWorkers), rest);
    }
  }

  lemma HeadIsRecorded(cfg: Config, bootId: Id, s: State, s': State, rows: seq<Entry>, rest: seq<Id>)
    requires s.queue != [] && s.queue[0] !in rest && FrontRecorded(cfg, bootId, StartHead(cfg, s), s', rows, rest)
    ensures FrontRecorded(cfg, bootId, s, s', HeadRow(cfg, bootId, s) + rows, [s.queue[0]] + rest)
  {
    var head, next := s.queue[0], StartHead(cfg, s);
    var started := Filter(Known(next.tasks), rest);
    FilterConcat(Known(s.tasks), [head], rest);
    FilterSnoc(Known(s.tasks), [], head);
    assert [] + [head] == [head];
    FilterCongruent(Known(s.tasks), Known(next.tasks), rest);
    FilterMembers(Known(next.tasks), rest);
    forall j | 0 <= j < |started| ensures started[j] in s.tasks && next.tasks[started[j]] == s.tasks[started[j]] {
      assert started[j] in started && started[j] in rest;
    }
    if head in s.tasks {
      assert s'.tasks[head] == next.tasks[head];
      FrontGrows(cfg, bootId, s, s', rows, started, head);
    } else {
      assert [] + rows == rows && [] + started == started;
    }
  }

  lemma FrontGrows(cfg: Config, bootId: Id, s: State, s': State, rows: seq<Entry>, started: seq<Id>, head: Id)
    requires head in s.tasks && head in s'.tasks && RowsBegin(cfg, bootId, s, s', rows, started)
    requires s'.tasks[head] == s.tasks[head].(status := Running, recoverability := ClassOf(cfg, s.tasks[head]))
    ensures RowsBegin(cfg, bootId, s, s', [StartEntry(cfg, bootId, s.tasks[head])] + rows, [head] + started)
  {
  }

  function HeadRow(cfg: Config, bootId: Id, s: State): seq<Entry>
    requires s.queue != []
  {
    if s.queue[0] in s.tasks then [StartEntry(cfg, bootId, s.tasks[s.queue[0]])] else []
  }

  /** What the snapshot table holds after a pass: every start is followed at once by a save. */
  function SnapshotAfterPass(cfg: Config, s: State, maxWorkers: int, before: Option<State>): Option<State>
    decreases |s.queue|
  {
    if |s.active| >= maxWorkers || s.queue == [] then before else
      var next := StartHead(cfg, s);
      SnapshotAfterPass(cfg, next, maxWorkers, if s.queue[0] in s.tasks then Some(next) else before)
  }

  /** What is saved last knows what was known before the pass, and is the final state when the table knows every queued task. */
  lemma PassIsSaved(cfg: Config, s: State, maxWorkers: int, before: Option<State>)
    ensures var after := SnapshotAfterPass(cfg, s, maxWorkers, before);
            && (after == before || (after.Some? && after.value.requestIndex == s.requestIndex))
            && (AllKnown(s.tasks, s.queue) && before == Some(s) ==> after == Some(Scheduled(cfg, s, maxWorkers)))
    decreases |s.queue|
  {
    if |s.active| < maxWorkers && s.queue != [] {
      var next := StartHead(cfg, s);
      PassIsSaved(cfg, next, maxWorkers, if s.queue[0] in s.tasks then Some(next) else before);
      assert s.queue[0] in s.queue;
    }
  }

  /** A pass interrupted at `s`, with `written` on record and `saved` in the table so far, ends as the pass from `s0` would. */
  ghost predicate Halfway(cfg: Config, bootId: Id, maxWorkers: int, s0: State, saved0: Option<State>, s: State, saved: Option<State>, written: seq<Entry>) {
    && Scheduled(cfg, s0, maxWorkers) == Scheduled(cfg, s, maxWorkers)
    && SnapshotAfterPass(cfg, s0, maxWorkers, saved0) == SnapshotAfterPass(cfg, s, maxWorkers, saved)
    && Recordable(ScheduledEntries(cfg, bootId, s0, maxWorkers)) == written + Recordable(ScheduledEntries(cfg, bootId, s, maxWorkers))
  }

  lemma Beginning(cfg: Config, bootId: Id, maxWorkers: int, s0: State, saved0: Option<State>)
    ensures Halfway(cfg, bootId, maxWorkers, s0, saved0, s0, saved0, [])
  {
  }

  function SavedByStart(cfg: Config, s: State, saved: Option<State>): Option<State>
    requires s.queue != []
  {
    if s.queue[0] in s.tasks then Some(StartHead(cfg, s)) else saved
  }

  lemma OneStepFurther(cfg: Config, bootId: Id, maxWorkers: int, s0: State, saved0: Option<State>, s: State, saved: Option<State>, written: seq<Entry>)
    requires Halfway(cfg, bootId, maxWorkers, s0, saved0, s, saved, written) && |s.active| < maxWorkers && s.queue != []
    ensures Halfway(cfg, bootId, maxWorkers, s0, saved0, StartHead(cfg, s), SavedByStart(cfg, s, saved), written + Recordable(HeadRow(cfg, bootId, s)))
  {
    var next := StartHead(cfg, s);
    var tail := ScheduledEntries(cfg, bootId, next, maxWorkers);
    FilterConcat(Complete, HeadRow(cfg, bootId, s), tail);
    assert ScheduledEntries(cfg, bootId, s, maxWorkers) == HeadRow(cfg, bootId, s) + tail;
    assert written + (Recordable(HeadRow(cfg, bootId, s)) + Recordable(tail)) == written + Recordable(HeadRow(cfg, bootId, s)) + Recordable(tail);
  }

  lemma PassOver(cfg: Config, bootId: Id, maxWorkers: int, s0: State, saved0: Option<State>, s: State, saved: Option<State>, written: seq<Entry>)
    requires Halfway(cfg, bootId, maxWorkers, s0, saved0, s, saved, written) && (|s.active| >= maxWorkers || s.queue == [])
    ensures s == Scheduled(cfg, s0, maxWorkers) && saved == SnapshotAfterPass(cfg, s0, maxWorkers, saved0)
    ensures written == Recordable(ScheduledEntries(cfg, bootId, s0, maxWorkers))
  {
  }

  // ------------------------------------------------------------------- one reconciled attempt

  lemma OneMoreResolved(cfg: Config, bootId: Id, s: State, attempts: seq<Entry>, i: nat, answers: nat -> Answer, newAttempts: nat -> Id)
    requires i < |attempts|
    ensures ReconcileAll(cfg, bootId, s, attempts[..i + 1], answers, newAttempts)
         == Resolve(cfg, bootId, ReconcileAll(cfg, bootId, s, attempts[..i], answers, newAttempts), attempts[i], answers(i), newAttempts(i))
  {
    assert attempts[..i + 1][..i] == attempts[..i];
  }

  /** What the journal records of a pass, and of the scheduling that follows when something is re-run. */
  function PassEntries(cfg: Config, bootId: Id, p: Pass): seq<Entry> {
    Recordable(p.rows) + (if p.rerun != [] then Recordable(ScheduledEntries(cfg, bootId, p.state, MaxWorkers(None, p.state.workers))) else [])
  }

  /** The state after the pass, its re-runs started as far as workers allow. */
  function PassState(cfg: Config, p: Pass): State {
    if p.rerun != [] then Scheduled(cfg, p.state, MaxWorkers(None, p.state.workers)) else p.state
  }

  /** What the snapshot table holds after the pass: nothing new unless something was re-run or reported. */
  function PassSnapshot(cfg: Config, p: Pass, before: Option<State>): Option<State> {
    var saved := if p.rerun != [] || p.reported != [] then Some(p.state) else before;
    if p.rerun != [] then SnapshotAfterPass(cfg, p.state, MaxWorkers(None, p.state.workers), saved) else saved
  }

  lemma RecordMore(before: seq<Entry>, rows: seq<Entry>, more: seq<Entry>)
    ensures before + Recordable(rows + more) == before + Recordable(rows) + Recordable(more)
  {
    FilterConcat(Complete, rows, more);
  }

  // ------------------------------------------------------------------- one inbox envelope

  /** What token introspection and the guardrails say about a new task: run it, or refuse it with a code. */
  datatype Intake = Welcome | Turned(code: string)

  function TakeIn(cfg: Config, s: State, env: TaskEnvelope, ids: FreshIds, now: int, intake: Intake): State
    requires cfg.identity.hotlineIds != []
  {
    if !Addressed(env, cfg.identity) || Duplicate(s, env) then s
    else
      var t := CreateTask(env, cfg.identity, ids, now);
      match intake
      case Welcome => Scheduled(cfg, Enqueue(s, t), MaxWorkers(None, s.workers))
      case Turned(code) => Remember(s, ResultBuilder.RejectTask(cfg.signer, t, code))
  }

  function TakeInAll(cfg: Config, s: State, items: seq<TaskEnvelope>, ids: nat -> FreshIds, clock: nat -> int, intakes: nat -> Intake): State
    requires cfg.identity.hotlineIds != []
  {
    if items == [] then s else
      var i := |items| - 1;
      TakeIn(cfg, TakeInAll(cfg, s, items[..i], ids, clock, intakes), items[i], ids(i), clock(i), intakes(i))
  }

  function IsServed(cfg: Config): TaskEnvelope -> bool {
    (env: TaskEnvelope) => Addressed(env, cfg.identity)
  }

  /** Every envelope addressed to this responder is acked, on the adapter's own queue whatever queue was polled. */
  function AckAll(cfg: Config, queue: seq<TaskEnvelope>, items: seq<TaskEnvelope>): seq<TaskEnvelope> {
    AckEach(TaskMessageId, IsServed(cfg), queue, items)
  }

  /** The stored result a duplicate sends out again, to whoever asked this time. */
  function Replay(cfg: Config, s: State, env: TaskEnvelope): seq<Task> {
    if Addressed(env, cfg.identity) && Duplicate(s, env) && TaskFor(s, env.requestId.value).value.resultPackage.Some? then
      var t := TaskFor(s, env.requestId.value).value;
      [t.(replyTo := if Given(env.from) then env.from.value else t.replyTo)]
    else []
  }

  function ReplayAll(cfg: Config, s: State, items: seq<TaskEnvelope>, ids: nat -> FreshIds, clock: nat -> int, intakes: nat -> Intake): seq<Task>
    requires cfg.identity.hotlineIds != []
  {
    if items == [] then [] else
      var i := |items| - 1;
      ReplayAll(cfg, s, items[..i], ids, clock, intakes) + Replay(cfg, TakeInAll(cfg, s, items[..i], ids, clock, intakes), items[i])
  }

  /**
   A pass takes what it handled off the queue it polled exactly when it polled the adapter's own
   queue and handled something; polled under another name, the queue stays as it is, to be
   polled again.
   */
  lemma PassEmptiesExactlyWhen(cfg: Config, queue: seq<TaskEnvelope>, polled: Id, own: Id, limit: nat)
    ensures (if polled == own then AckAll(cfg, queue, FirstFew(queue, limit)) else queue) != queue
       <==> polled == own && exists env :: env in FirstFew(queue, limit) && Addressed(env, cfg.identity)
  {
    BlockedExactlyWhen(TaskMessageId, IsServed(cfg), queue, limit);
    assert forall env :: IsServed(cfg)(env) == Addressed(env, cfg.identity);
  }

  /** After an envelope addressed to this responder its request is known, and no request is forgotten. */
  lemma TakenInIsKnown(cfg: Config, s: State, env: TaskEnvelope, ids: FreshIds, now: int, intake: Intake)
    requires cfg.identity.hotlineIds != []
    ensures var s' := TakeIn(cfg, s, env, ids, now, intake);
            && s.requestIndex.Keys <= s'.requestIndex.Keys
            && (Addressed(env, cfg.identity) && Given(env.requestId) ==> env.requestId.value in s'.requestIndex)
  {
    if Addressed(env, cfg.identity) && !Duplicate(s, env) && intake.Welcome? {
      var t := CreateTask(env, cfg.identity, ids, now);
      var _ := PassTakesPrefix(cfg, Enqueue(s, t), MaxWorkers(None, s.workers));
    }
  }

  lemma OneMoreTaken(cfg: Config, s: State, queue: seq<TaskEnvelope>, items: seq<TaskEnvelope>, i: nat,
                     ids: nat -> FreshIds, clock: nat -> int, intakes: nat -> Intake)
    requires cfg.identity.hotlineIds != [] && i < |items|
    ensures var before := TakeInAll(cfg, s, items[..i], ids, clock, intakes);
            && TakeInAll(cfg, s, items[..i + 1], ids, clock, intakes) == TakeIn(cfg, before, items[i], ids(i), clock(i), intakes(i))
            && ReplayAll(cfg, s, items[..i + 1], ids, clock, intakes) == ReplayAll(cfg, s, items[..i], ids, clock, intakes) + Replay(cfg, before, items[i])
    ensures AckAll(cfg, queue, items[..i + 1])
         == if Addressed(items[i], cfg.identity) then RemoveFirst(TaskMessageId, AckAll(cfg, queue, items[..i]), items[i].messageId)
            else AckAll(cfg, queue, items[..i])
  {
    assert items[..i + 1][..i] == items[..i];
    AckOneMore(TaskMessageId, IsServed(cfg), queue, items, i);
  }

  /** Every request the envelopes name, and this responder serves, is known. */
  ghost predicate AllAccepted(cfg: Config, items: seq<TaskEnvelope>, s: State) {
    forall env :: env in items && Addressed(env, cfg.identity) && Given(env.requestId) ==> env.requestId.value in s.requestIndex
  }

  lemma AcceptedFurther(cfg: Config, items: seq<TaskEnvelope>, i: nat, s: State, ids: FreshIds, now: int, intake: Intake)
    requires cfg.identity.hotlineIds != [] && i < |items| && AllAccepted(cfg, items[..i], s)
    ensures AllAccepted(cfg, items[..i + 1], TakeIn(cfg, s, items[i], ids, now, intake))
  {
    TakenInIsKnown(cfg, s, items[i], ids, now, intake);
    assert items[..i + 1] == items[..i] + [items[i]];
  }

  class Runtime {
    const cfg: Config
    const bootId: Id
    const journal: Journal
    const store: Store
    var tasks: map<Id, Task>
    var requestIndex: map<Id, Id>
    var queue: seq<Id>
    var active: seq<Id>
    var workers: int

    function Value(): State
      reads this
    {
      State(tasks, requestIndex, queue, active, workers)
    }

    constructor (cfg: Config, bootId: Id, journal: Journal, store: Store, workers: int)
      ensures Value() == EmptyState(MaxWorkers(None, workers))
      ensures this.cfg == cfg && this.bootId == bootId && this.journal == journal && this.store == store
    {
      this.cfg, this.bootId, this.journal, this.store := cfg, bootId, journal, store;
      tasks, requestIndex, queue, active, this.workers := map[], map[], [], [], MaxWorkers(None, workers);
    }

    /** A new process takes over what the snapshot holds, with nothing active; without one it keeps what it has. */
    method Hydrate(snapshot: Option<State>)
      modifies this
      ensures Value() == if snapshot.Some? then Hydrated(snapshot.value, old(workers)) else old(Value())
    {
      if snapshot.None? {
        return;
      }
      tasks, requestIndex := snapshot.value.tasks, snapshot.value.requestIndex;
      queue, active := snapshot.value.queue, [];
      workers := MaxWorkers(Some(snapshot.value.workers), workers);
    }

    method AppendEntry(e: Entry)
      modifies journal
      ensures journal.Entries() == old(journal.Entries()) + Recordable([e])
    {
      ghost var before := journal.Entries();
      FilterSnoc(Complete, [], e);
      assert [] + [e] == [e] && before + [] == before;
      var _ := journal.Append(e);
    }

    method RememberTask(t: Task)
      modifies this
      ensures Value() == Remember(old(Value()), t)
    {
      tasks := tasks[t.taskId := t];
      requestIndex := requestIndex[t.requestId := t.taskId];
    }

    /** The synchronous beginning of a run: the recorded class, then the start row. */
    method BeginRun(id: Id)
      requires id in tasks
      modifies this, journal
      ensures Value() == old(Value()).(tasks := old(tasks)[id := old(tasks)[id].(recoverability := ClassOf(cfg, old(tasks)[id]))])
      ensures journal.Entries() == old(journal.Entries()) + Recordable([StartEntry(cfg, bootId, old(tasks)[id])])
    {
      var t := tasks[id];
      tasks := tasks[id := t.(recoverability := ClassOf(cfg, t))];
      AppendEntry(StartEntry(cfg, bootId, t));
    }

    /** Takes the head off the queue, begins its run and saves, unless the table does not know it. */
    method StartNext()
      requires queue != []
      modifies this, journal, store
      ensures Value() == StartHead(cfg, old(Value()))
      ensures journal.Entries() == old(journal.Entries()) + Recordable(HeadRow(cfg, bootId, old(Value())))
      ensures store.Latest() == SavedByStart(cfg, old(Value()), old(store.Latest()))
    {
      ghost var rows := journal.Entries();
      var id := queue[0];
      queue := queue[1..];
      if id !in tasks {
        assert rows + [] == rows;
        return;
      }
      tasks := tasks[id := tasks[id].(status := Running)];
      active := active + [id];
      BeginRun(id);
      store.Save(Value());
    }

    /** One more start of a pass under way. */
    method StartAnother(ghost maxWorkers: int, ghost s0: State, ghost saved0: Option<State>, ghost rows0: seq<Entry>, ghost before: seq<Entry>)
      returns (ghost written: seq<Entry>)
      requires Halfway(cfg, bootId, maxWorkers, s0, saved0, Value(), store.Latest(), before) && journal.Entries() == rows0 + before
      requires |active| < maxWorkers && queue != []
      modifies this, journal, store
      ensures Halfway(cfg, bootId, maxWorkers, s0, saved0, Value(), store.Latest(), written) && journal.Entries() == rows0 + written
      ensures |queue| < |old(queue)|
    {
      OneStepFurther(cfg, bootId, maxWorkers, s0, saved0, Value(), store.Latest(), before);
      written := before + Recordable(HeadRow(cfg, bootId, Value()));
      StartNext();
    }

    /** Starts queued tasks while a worker is free, each start row followed at once by a save. */
    method ScheduleProcessQueue(override: Option<int>)
      modifies this, journal, store
      ensures Value() == Scheduled(cfg, old(Value()), MaxWorkers(override, old(workers)))
      ensures journal.Entries()
           == old(journal.Entries()) + Recordable(ScheduledEntries(cfg, bootId, old(Value()), MaxWorkers(override, old(workers))))
      ensures store.Latest() == SnapshotAfterPass(cfg, old(Value()), MaxWorkers(override, old(workers)), old(store.Latest()))
      ensures queue == [] || |active| >= MaxWorkers(override, old(workers))
    {
      var maxWorkers := MaxWorkers(override, workers);
      ghost var s0, saved0, rows0 := Value(), store.Latest(), journal.Entries();
      ghost var written := [];
      Beginning(cfg, bootId, maxWorkers, s0, saved0);
      while |active| < maxWorkers && queue != []
        invariant Halfway(cfg, bootId, maxWorkers, s0, saved0, Value(), store.Latest(), written)
        invariant journal.Entries() == rows0 + written
        decreases |queue|
      {
        written := StartAnother(maxWorkers, s0, saved0, rows0, written);
      }
      PassOver(cfg, bootId, maxWorkers, s0, saved0, Value(), store.Latest(), written);
    }

    /** Remembered, queued by priority and arrival, saved, and only then scheduled. */
    method EnqueueTask(t: Task, override: Option<int>)
      modifies this, journal, store
      ensures Value() == Scheduled(cfg, Enqueue(old(Value()), t), MaxWorkers(override, old(workers)))
      ensures store.Latest()
           == SnapshotAfterPass(cfg, Enqueue(old(Value()), t), MaxWorkers(override, old(workers)), Some(Enqueue(old(Value()), t)))
      ensures journal.Entries()
           == old(journal.Entries()) + Recordable(ScheduledEntries(cfg, bootId, Enqueue(old(Value()), t), MaxWorkers(override, old(workers))))
    {
      RememberTask(t);
      queue := queue + [t.taskId];
      queue := StableSort(tasks, queue);
      store.Save(Value());
      ScheduleProcessQueue(override);
    }

    /**
     The result is built, signed and set. Its package verifies under the responder's key and names
     the task's own request; call, attempt and rank of the task stay, and so does everything else.
     */
    method CompleteTask(id: Id, execution: ResultBuilder.Execution)
      requires id in tasks
      modifies this
      ensures tasks == old(tasks)[id := ResultBuilder.FinishTask(cfg.signer, old(tasks)[id], execution)]
      ensures tasks[id].status == Completed && tasks[id].resultPackage.Some?
      ensures IgnoresSignature(cfg.signer.crypto) ==>
                SignatureVerifies(cfg.signer.crypto, cfg.signer.key, tasks[id].resultPackage.value)
      ensures tasks[id].resultPackage.value.requestId == old(tasks)[id].requestId
      ensures tasks[id].requestId == old(tasks)[id].requestId && tasks[id].attemptId == old(tasks)[id].attemptId
      ensures tasks[id].priority == old(tasks)[id].priority && tasks[id].enqueuedAt == old(tasks)[id].enqueuedAt
      ensures Value() == old(Value()).(tasks := tasks)
    {
      ResultBuilder.FinishedPackage(cfg.signer, tasks[id], execution);
      tasks := tasks[id := ResultBuilder.FinishTask(cfg.signer, tasks[id], execution)];
    }

    /** The last row of a run closes its attempt: no later query will report it. */
    method RecordTerminal(id: Id)
      requires id in tasks
      modifies journal
      ensures journal.Entries() == old(journal.Entries()) + Recordable([TerminalEntry(bootId, tasks[id])])
      ensures Complete(TerminalEntry(bootId, tasks[id])) ==> ClosedIn(journal.Entries(), tasks[id].attemptId)
      ensures Complete(TerminalEntry(bootId, tasks[id])) ==>
                exists row :: journal.Entries() == old(journal.Entries()) + [row] && EndsRun(row, bootId, tasks[id])
    {
      ghost var rows := journal.Entries();
      var row := TerminalEntry(bootId, tasks[id]);
      AppendEntry(row);
      if Complete(row) {
        FilterAll(Complete, [row]);
        assert EndsRun(row, bootId, tasks[id]);
        ClosedSnoc(rows, row, row.attemptId);
      }
    }

    /** Whatever the outcome of a run, its worker is freed, the state saved and the queue scheduled again. */
    method RetireTask(id: Id)
      modifies this, journal, store
      ensures Value() == Scheduled(cfg, Retired(old(Value()), id), MaxWorkers(None, old(workers)))
      ensures store.Latest() == SnapshotAfterPass(cfg, Retired(old(Value()), id), MaxWorkers(None, old(workers)), Some(Retired(old(Value()), id)))
      ensures journal.Entries()
           == old(journal.Entries()) + Recordable(ScheduledEntries(cfg, bootId, Retired(old(Value()), id), MaxWorkers(None, old(workers))))
    {
      active := Filter(OtherId(id), active);
      store.Save(Value());
      ScheduleProcessQueue(None);
    }

    method RejectTask(t: Task, code: string)
      modifies this, store
      ensures Value() == Remember(old(Value()), ResultBuilder.RejectTask(cfg.signer, t, code))
      ensures store.Latest() == Some(Value())
    {
      RememberTask(ResultBuilder.RejectTask(cfg.signer, t, code));
      store.Save(Value());
    }

    /** Every request the process knows is in the snapshot. */
    ghost predicate Durable()
      reads this, store
    {
      requestIndex.Keys == {} || (store.Latest().Some? && requestIndex.Keys <= store.Latest().value.requestIndex.Keys)
    }

    /**
     One uninterrupted pass over the envelopes polled for a receiver. What is addressed to this
     responder is acked on the adapter's own queue, its request known and, being `Durable`, in the
     snapshot; a duplicate of a finished request has its result sent again. No other queue changes.
     */
    method ProcessInbox(adapter: Adapter<TaskEnvelope>, receiver: Option<Id>, limit: nat,
                        ids: nat -> FreshIds, clock: nat -> int, intakes: nat -> Intake)
      returns (items: seq<TaskEnvelope>, replays: seq<Task>)
      requires cfg.identity.hotlineIds != [] && adapter.hub.idOf == TaskMessageId && Durable()
      modifies this, journal, store, adapter.hub
      ensures items == FirstFew(old(adapter.hub.Queue(adapter.Target(Some(Polled(receiver))))), limit)
      ensures Value() == TakeInAll(cfg, old(Value()), items, ids, clock, intakes)
      ensures replays == ReplayAll(cfg, old(Value()), items, ids, clock, intakes)
      ensures adapter.hub.Queue(adapter.receiver) == AckAll(cfg, old(adapter.hub.Queue(adapter.receiver)), items)
      ensures forall r :: r != adapter.receiver ==> adapter.hub.Queue(r) == old(adapter.hub.Queue(r))
      ensures var polled := adapter.Target(Some(Polled(receiver)));
              adapter.hub.Queue(polled) != old(adapter.hub.Queue(polled))
              <==> polled == adapter.receiver && exists env :: env in items && Addressed(env, cfg.identity)
      ensures Durable()
      ensures AllAccepted(cfg, items, Value())
    {
      items := adapter.Poll(limit, Some(Polled(receiver)));
      ghost var s0, queue0 := Value(), adapter.hub.Queue(adapter.receiver);
      replays := [];
      var i := 0;
      while i < |items|
        invariant 0 <= i <= |items|
        invariant Value() == TakeInAll(cfg, s0, items[..i], ids, clock, intakes)
        invariant replays == ReplayAll(cfg, s0, items[..i], ids, clock, intakes)
        invariant adapter.hub.Queue(adapter.receiver) == AckAll(cfg, queue0, items[..i])
        invariant forall r :: r != adapter.receiver ==> adapter.hub.Queue(r) == old(adapter.hub.Queue(r))
        invariant Durable()
        invariant AllAccepted(cfg, items[..i], Value())
      {
        OneMoreTaken(cfg, s0, queue0, items, i, ids, clock, intakes);
        AcceptedFurther(cfg, items, i, Value(), ids(i), clock(i), intakes(i));
        replays := replays + Replay(cfg, Value(), items[i]);
        TakeAndAck(adapter, items[i], ids(i), clock(i), intakes(i));
        i := i + 1;
      }
      assert items[..|items|] == items;
      ghost var polled := adapter.Target(Some(Polled(receiver)));
      PassEmptiesExactlyWhen(cfg, old(adapter.hub.Queue(polled)), polled, adapter.receiver, limit);
    }

    /** The receiver a pass polls: the one it is given, else the responder's own id. */
    function Polled(receiver: Option<Id>): Id {
      if Given(receiver) then receiver.value else cfg.identity.responderId
    }

    method TakeAndAck(adapter: Adapter<TaskEnvelope>, env: TaskEnvelope, ids: FreshIds, now: int, intake: Intake)
      requires cfg.identity.hotlineIds != [] && adapter.hub.idOf == TaskMessageId && Durable()
      modifies this, journal, store, adapter.hub
      ensures Durable() && Value() == TakeIn(cfg, old(Value()), env, ids, now, intake)
      ensures adapter.hub.Queue(adapter.receiver)
           == if Addressed(env, cfg.identity) then RemoveFirst(TaskMessageId, old(adapter.hub.Queue(adapter.receiver)), env.messageId)
              else old(adapter.hub.Queue(adapter.receiver))
      ensures forall r :: r != adapter.receiver ==> adapter.hub.Queue(r) == old(adapter.hub.Queue(r))
    {
      if Addressed(env, cfg.identity) {
        if !Duplicate(Value(), env) {
          Admit(CreateTask(env, cfg.identity, ids, now), intake);
        }
        var _ := adapter.Ack(env.messageId, None);
      }
    }

    /** The body of the pass for one interrupted attempt. */
    method ReconcileOne(e: Entry, answer: Answer, newAttempt: Id) returns (d: Decision)
      modifies this, journal
      ensures d == Decide(cfg, old(Value()), e, answer)
      ensures Value() == AfterDecision(old(Value()), e, d, newAttempt)
      ensures journal.Entries() == old(journal.Entries()) + Recordable(DecisionEntries(bootId, e, d))
    {
      ghost var rows := journal.Entries();
      d := Decide(cfg, Value(), e, answer);
      if d.Rerun? {
        AppendEntry(SupersededEntry(bootId, e));
        var id := requestIndex[e.callId];
        var t := tasks[id];
        tasks := tasks[id := t.(attemptId := newAttempt, status := Queued)];
        if t.taskId !in queue {
          queue := queue + [t.taskId];
        }
      } else if d.Reported? {
        AppendEntry(ReconciledEntry(bootId, e));
        if TaskFor(Value(), e.callId).Some? {
          var id := requestIndex[e.callId];
          tasks := tasks[id := tasks[id].(status := TaskStatus.Failed, reconciled := true)];
        }
      } else {
        assert rows + [] == rows;
      }
    }

    /** The loop of the pass: one attempt after another, counting what became of them. */
    method ReconcileEach(attempts: seq<Entry>, answers: nat -> Answer, newAttempts: nat -> Id)
      returns (ghost p: Pass, reruns: nat, reports: nat, unreported: nat)
      modifies this, journal
      ensures p == ReconcileAll(cfg, bootId, old(Value()), attempts, answers, newAttempts) && Value() == p.state
      ensures journal.Entries() == old(journal.Entries()) + Recordable(p.rows)
      ensures reruns == |p.rerun| && reports == |p.reported| && unreported == |p.unreported|
    {
      ghost var s0, rows0 := Value(), journal.Entries();
      reruns, reports, unreported := 0, 0, 0;
      var i := 0;
      p := Pass(s0, [], [], [], []);
      assert rows0 + [] == rows0;
      while i < |attempts|
        invariant 0 <= i <= |attempts|
        invariant p == ReconcileAll(cfg, bootId, s0, attempts[..i], answers, newAttempts)
        invariant Value() == p.state && journal.Entries() == rows0 + Recordable(p.rows)
        invariant reruns == |p.rerun| && reports == |p.reported| && unreported == |p.unreported|
      {
        OneMoreResolved(cfg, bootId, s0, attempts, i, answers, newAttempts);
        var d := ReconcileOne(attempts[i], answers(i), newAttempts(i));
        RecordMore(rows0, p.rows, DecisionEntries(bootId, attempts[i], d));
        p := Resolve(cfg, bootId, p, attempts[i], answers(i), newAttempts(i));
        match d {
          case Rerun => reruns := reruns + 1;
          case Reported => reports := reports + 1;
          case Unreported => unreported := unreported + 1;
        }
        i := i + 1;
      }
      assert attempts[..|attempts|] == attempts;
    }

    /** Closes out, after a restart, what earlier boots left open; saved if anything changed, scheduled if anything is re-run. */
    method ReconcileInterruptedAttempts(answers: nat -> Answer, newAttempts: nat -> Id) returns (ghost p: Pass, inspected: nat, unreported: nat)
      modifies this, journal, store
      ensures p == ReconcileAll(cfg, bootId, old(Value()), Interrupted(old(journal.Entries()), Some(bootId)), answers, newAttempts)
      ensures exists fates :: PassOutcome(cfg, old(Value()), p, Interrupted(old(journal.Entries()), Some(bootId)), fates, answers, newAttempts)
      ensures inspected == |p.rerun| + |p.reported| + |p.unreported| && unreported == |p.unreported|
      ensures Value() == PassState(cfg, p) && journal.Entries() == old(journal.Entries()) + PassEntries(cfg, bootId, p)
      ensures store.Latest() == PassSnapshot(cfg, p, old(store.Latest()))
    {
      var attempts := journal.ListInterruptedAttempts(Some(bootId));
      inspected := |attempts|;
      ghost var s0, rows0, saved0 := Value(), journal.Entries(), store.Latest();
      var reruns, reports;
      p, reruns, reports, unreported := ReconcileEach(attempts, answers, newAttempts);
      assert inspected == |p.rerun| + |p.reported| + |p.unreported| by {
        PassPartitions(cfg, bootId, s0, attempts, answers, newAttempts);
      }
      ghost var fates := PassSettlesTasks(cfg, bootId, s0, attempts, answers, newAttempts);
      if reruns > 0 || reports > 0 {
        store.Save(Value());
      }
      ScheduleReruns(reruns > 0, rows0, saved0, p);
    }

    method ScheduleReruns(any: bool, ghost rows0: seq<Entry>, ghost saved0: Option<State>, ghost p: Pass)
      requires Value() == p.state && any == (p.rerun != []) && journal.Entries() == rows0 + Recordable(p.rows)
      requires store.Latest() == if p.rerun != [] || p.reported != [] then Some(p.state) else saved0
      modifies this, journal, store
      ensures Value() == PassState(cfg, p) && journal.Entries() == rows0 + PassEntries(cfg, bootId, p)
      ensures store.Latest() == PassSnapshot(cfg, p, saved0)
    {
      if any {
        ScheduleProcessQueue(None);
      } else {
        assert PassEntries(cfg, bootId, p) == Recordable(p.rows);
      }
    }

    method Admit(t: Task, intake: Intake)
      requires Durable()
      modifies this, journal, store
      ensures Durable()
      ensures Value() == match intake
              case Welcome => Scheduled(cfg, Enqueue(old(Value()), t), MaxWorkers(None, old(workers)))
              case Turned(code) => Remember(old(Value()), ResultBuilder.RejectTask(cfg.signer, t, code))
    {
      match intake
      case Welcome =>
        ghost var queued := Enqueue(Value(), t);
        var _ := PassTakesPrefix(cfg, queued, MaxWorkers(None, workers));
        PassIsSaved(cfg, queued, MaxWorkers(None, workers), Some(queued));
        EnqueueTask(t, None);
        assert requestIndex == queued.requestIndex;
      case Turned(code) =>
        RejectTask(t, code);
    }
  }

  /** Polled under another receiver's name, an envelope is handled, acked, and still there: the next pass takes it up again. */
  method PolledElsewhere(runtime: Runtime, adapter: Adapter<TaskEnvelope>, elsewhere: Id, env: TaskEnvelope,
                         ids: nat -> FreshIds, clock: nat -> int, intakes: nat -> Intake)
    returns (first: seq<TaskEnvelope>, second: seq<TaskEnvelope>)
    requires runtime.cfg.identity.hotlineIds != [] && adapter.hub.idOf == TaskMessageId && runtime.Durable()
    requires elsewhere != "" && elsewhere != adapter.receiver && adapter.hub.Queue(elsewhere) == [env]
    requires Addressed(env, runtime.cfg.identity) && Given(env.requestId)
    modifies runtime, runtime.journal, runtime.store, adapter.hub
    ensures first == [env] && second == [env] && adapter.hub.Queue(elsewhere) == [env]
    ensures env.requestId.value in runtime.requestIndex
  {
    var replays;
    first, replays := runtime.ProcessInbox(adapter, Some(elsewhere), 10, ids, clock, intakes);
    second, replays := runtime.ProcessInbox(adapter, Some(elsewhere), 10, ids, clock, intakes);
    assert env in second;
  }
}
