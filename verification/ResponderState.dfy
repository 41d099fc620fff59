/**
 The responder's table of tasks, its request index, its priority queue and its bounded set of
 active tasks, as values; `ResponderRuntime` holds the same fields in place.
 */
module ResponderState {
  import opened Collections
  import opened ExecutionJournal
  import opened ResponderTasks
  import opened Results
  import ResultBuilder

  datatype State = State(
    tasks: map<Id, Task>,
    requestIndex: map<Id, Id>,
    queue: seq<Id>,
    active: seq<Id>,
    workers: int)

  /** The policy the runtime is given: what may be re-run, what the protocol lets it report, who signs. */
  datatype Config = Config(
    signer: ResultBuilder.Signer,
    identity: Identity,
    hasExecutor: bool,
    classOf: (Id, Option<string>) -> Option<string>,
    mayAutoRerun: (Id, Option<string>) -> bool,
    reportValid: Entry -> bool)

  function EmptyState(workers: int): State {
    State(map[], map[], [], [], workers)
  }

  function MaxWorkers(override: Option<int>, workers: int): (n: int)
    ensures n >= 1
  {
    var chosen := if override.Some? && override.value != 0 then override.value else if workers != 0 then workers else 1;
    if chosen < 1 then 1 else chosen
  }

  /** A positive override wins, else the process's own positive count, else one worker; zero reads as unset, and nothing lies below one. */
  lemma WorkersByCase(override: Option<int>, workers: int)
    ensures override.Some? && override.value > 0 ==> MaxWorkers(override, workers) == override.value
    ensures (override.None? || override.value == 0) && workers > 0 ==> MaxWorkers(override, workers) == workers
    ensures (override.None? || override.value == 0) && workers <= 0 ==> MaxWorkers(override, workers) == 1
    ensures override.Some? && override.value < 0 ==> MaxWorkers(override, workers) == 1
  {
  }

  function TaskFor(s: State, requestId: Id): Option<Task> {
    if requestId in s.requestIndex && s.requestIndex[requestId] in s.tasks
    then Some(s.tasks[s.requestIndex[requestId]]) else None
  }

  /** The check before an insertion looks the request up, and nothing else. */
  predicate Duplicate(s: State, env: TaskEnvelope) {
    env.requestId.Some? && TaskFor(s, env.requestId.value).Some?
  }

  function Remember(s: State, t: Task): State {
    s.(tasks := s.tasks[t.taskId := t], requestIndex := s.requestIndex[t.requestId := t.taskId])
  }

  // --------------------------------------------------------------- the priority queue

  /** Lower priority numbers first, then earlier arrival; ids without a task compare equal to everything. */
  predicate NotAfter(tasks: map<Id, Task>, a: Id, b: Id) {
    a in tasks && b in tasks ==>
      tasks[a].priority < tasks[b].priority || (tasks[a].priority == tasks[b].priority && tasks[a].enqueuedAt <= tasks[b].enqueuedAt)
  }

  ghost predicate Sorted(tasks: map<Id, Task>, queue: seq<Id>) {
    forall i, j :: 0 <= i < j < |queue| ==> NotAfter(tasks, queue[i], queue[j])
  }

  function Insert(tasks: map<Id, Task>, queue: seq<Id>, id: Id): seq<Id> {
    if queue == [] then [id]
    else if NotAfter(tasks, queue[|queue| - 1], id) then queue + [id]
    else Insert(tasks, queue[..|queue| - 1], id) + [queue[|queue| - 1]]
  }

  /** The library's stable sort. */
  function StableSort(tasks: map<Id, Task>, queue: seq<Id>): seq<Id> {
    if queue == [] then [] else Insert(tasks, StableSort(tasks, queue[..|queue| - 1]), queue[|queue| - 1])
  }

  function Enqueue(s: State, t: Task): State {
    var r := Remember(s, t);
    r.(queue := StableSort(r.tasks, s.queue + [t.taskId]))
  }

  // ------------------------------------------------------------------------ scheduling

  /** The class a start row records: declared by the hotline, else by the task itself. */
  function ClassOf(cfg: Config, t: Task): Option<string> {
    cfg.classOf(t.hotlineId, t.recoverability)
  }

  /** The head of the queue leaves it; an id the table does not know is dropped. */
  function StartHead(cfg: Config, s: State): State
    requires s.queue != []
  {
    var id := s.queue[0];
    if id !in s.tasks then s.(queue := s.queue[1..])
    else s.(queue := s.queue[1..],
            active := s.active + [id],
            tasks := s.tasks[id := s.tasks[id].(status := Running, recoverability := ClassOf(cfg, s.tasks[id]))])
  }

  /** The start row, written before the executor runs. */
  function StartEntry(cfg: Config, bootId: Id, t: Task): Entry {
    Entry(bootId, t.requestId, t.attemptId, Started, None, ClassOf(cfg, t), Some(t.hotlineId))
  }

  function Scheduled(cfg: Config, s: State, maxWorkers: int): State
    decreases |s.queue|
  {
    if |s.active| >= maxWorkers || s.queue == [] then s else Scheduled(cfg, StartHead(cfg, s), maxWorkers)
  }

  /** The rows one scheduling pass appends. */
  function ScheduledEntries(cfg: Config, bootId: Id, s: State, maxWorkers: int): seq<Entry>
    decreases |s.queue|
  {
    if |s.active| >= maxWorkers || s.queue == [] then [] else
      (if s.queue[0] in s.tasks then [StartEntry(cfg, bootId, s.tasks[s.queue[0]])] else [])
      + ScheduledEntries(cfg, bootId, StartHead(cfg, s), maxWorkers)
  }

  function OtherId(id: Id): Id -> bool {
    (x: Id) => x != id
  }

  function Retired(s: State, id: Id): State {
    s.(active := Filter(OtherId(id), s.active))
  }

  function TerminalEntry(bootId: Id, t: Task): Entry {
    Entry(bootId, t.requestId, t.attemptId, Terminal,
          Some(if t.resultPackage.Some? && t.resultPackage.value.status.Ok? then Delivered else ExecutionFailed),
          t.recoverability, None)
  }

  /** A new process starts from the snapshot with nothing active. */
  function Hydrated(snapshot: State, workers: int): State {
    snapshot.(active := [], workers := MaxWorkers(Some(snapshot.workers), workers))
  }

  // -------------------------------------------------------------------- reconciliation

  datatype Answer = Accepted | Refused | Unreachable

  datatype Decision = Rerun | Reported | Unreported

  function Decide(cfg: Config, s: State, e: Entry, answer: Answer): Decision {
    var task := TaskFor(s, e.callId);
    var hotline := if Given(e.hotlineId) then e.hotlineId.value else if task.Some? then task.value.hotlineId else "unknown";
    if cfg.mayAutoRerun(hotline, e.recoverability) && task.Some? && cfg.hasExecutor then Rerun
    else if !cfg.reportValid(e) then Unreported
    else if answer.Accepted? then Reported else Unreported
  }

  function SupersededEntry(bootId: Id, e: Entry): Entry {
    Entry(bootId, e.callId, e.attemptId, Superseded, None, e.recoverability, None)
  }

  function ReconciledEntry(bootId: Id, e: Entry): Entry {
    Entry(bootId, e.callId, e.attemptId, Reconciled, Some(ExecutionFailed), e.recoverability, None)
  }

  /** The row a decision writes: none when the attempt stays open. */
  function DecisionEntries(bootId: Id, e: Entry, d: Decision): seq<Entry> {
    match d
    case Rerun => [SupersededEntry(bootId, e)]
    case Reported => [ReconciledEntry(bootId, e)]
    case Unreported => []
  }

  /** A re-run mints a new attempt and queues the task unless it is queued already; a report marks the task failed. */
  function AfterDecision(s: State, e: Entry, d: Decision, newAttempt: Id): State {
    var task := TaskFor(s, e.callId);
    if task.None? || d.Unreported? then s else
      var t := task.value;
      var id := s.requestIndex[e.callId];
      if d.Rerun? then
        s.(tasks := s.tasks[id := t.(attemptId := newAttempt, status := Queued)],
           queue := if t.taskId in s.queue then s.queue else s.queue + [t.taskId])
      else
        s.(tasks := s.tasks[id := t.(status := TaskStatus.Failed, reconciled := true)])
  }

  // --------------------------------------------------------------- facts about the sort

  lemma {:induction false} InsertTally(p: Id -> bool, tasks: map<Id, Task>, queue: seq<Id>, id: Id)
    ensures Tally(p, Insert(tasks, queue, id)) == Tally(p, queue) + (if p(id) then 1 else 0)
  {
    if queue == [] {
      TallySnoc(p, [], id);
      assert [] + [id] == [id];
    } else if NotAfter(tasks, queue[|queue| - 1], id) {
      TallySnoc(p, queue, id);
    } else {
      InsertTally(p, tasks, queue[..|queue| - 1], id);
      TallySnoc(p, Insert(tasks, queue[..|queue| - 1], id), queue[|queue| - 1]);
    }
  }

  lemma {:induction false} SortTally(p: Id -> bool, tasks: map<Id, Task>, queue: seq<Id>)
    ensures Tally(p, StableSort(tasks, queue)) == Tally(p, queue)
  {
    if queue != [] {
      SortTally(p, tasks, queue[..|queue| - 1]);
      InsertTally(p, tasks, StableSort(tasks, queue[..|queue| - 1]), queue[|queue| - 1]);
    }
  }

  lemma {:induction false} InsertPermutes(tasks: map<Id, Task>, queue: seq<Id>, id: Id)
    ensures multiset(Insert(tasks, queue, id)) == multiset(queue) + multiset{id}
    ensures |Insert(tasks, queue, id)| == |queue| + 1
  {
    if queue != [] && !NotAfter(tasks, queue[|queue| - 1], id) {
      InsertPermutes(tasks, queue[..|queue| - 1], id);
      assert queue == queue[..|queue| - 1] + [queue[|queue| - 1]];
    }
  }

  lemma {:induction false} SortPermutes(tasks: map<Id, Task>, queue: seq<Id>)
    ensures multiset(StableSort(tasks, queue)) == multiset(queue)
    ensures |StableSort(tasks, queue)| == |queue|
  {
    if queue != [] {
      SortPermutes(tasks, queue[..|queue| - 1]);
      InsertPermutes(tasks, StableSort(tasks, queue[..|queue| - 1]), queue[|queue| - 1]);
      assert queue == queue[..|queue| - 1] + [queue[|queue| - 1]];
    }
  }

  lemma SortMembers(tasks: map<Id, Task>, queue: seq<Id>)
    ensures forall id :: id in StableSort(tasks, queue) <==> id in queue
  {
    SortPermutes(tasks, queue);
    forall id ensures id in StableSort(tasks, queue) <==> id in queue {
      assert id in multiset(StableSort(tasks, queue)) <==> id in multiset(queue);
    }
  }

  ghost predicate AllKnown(tasks: map<Id, Task>, queue: seq<Id>) {
    forall id :: id in queue ==> id in tasks
  }

  lemma {:induction false} InsertSorted(tasks: map<Id, Task>, queue: seq<Id>, id: Id)
    requires Sorted(tasks, queue) && AllKnown(tasks, queue) && id in tasks
    ensures Sorted(tasks, Insert(tasks, queue, id))
    ensures AllKnown(tasks, Insert(tasks, queue, id))
  {
    if queue != [] && !NotAfter(tasks, queue[|queue| - 1], id) {
      var init, last := queue[..|queue| - 1], queue[|queue| - 1];
      InsertSorted(tasks, init, id);
      InsertMembers(tasks, init, id);
      forall x | x in init ensures NotAfter(tasks, x, last) {
        var k :| 0 <= k < |init| && init[k] == x;
        assert NotAfter(tasks, queue[k], queue[|queue| - 1]);
      }
      SortedBeforeLast(tasks, Insert(tasks, init, id), last);
    }
  }

  lemma InsertMembers(tasks: map<Id, Task>, queue: seq<Id>, id: Id)
    ensures forall x :: x in Insert(tasks, queue, id) ==> x in queue || x == id
  {
    InsertPermutes(tasks, queue, id);
    forall x | x in Insert(tasks, queue, id) ensures x in queue || x == id {
      assert x in multiset(Insert(tasks, queue, id));
    }
  }

  lemma SortedBeforeLast(tasks: map<Id, Task>, front: seq<Id>, last: Id)
    requires Sorted(tasks, front) && forall x :: x in front ==> NotAfter(tasks, x, last)
    ensures Sorted(tasks, front + [last])
  {
  }

  lemma {:induction false} SortSorts(tasks: map<Id, Task>, queue: seq<Id>)
    requires AllKnown(tasks, queue)
    ensures Sorted(tasks, StableSort(tasks, queue)) && AllKnown(tasks, StableSort(tasks, queue))
  {
    if queue != [] {
      SortSorts(tasks, queue[..|queue| - 1]);
      InsertSorted(tasks, StableSort(tasks, queue[..|queue| - 1]), queue[|queue| - 1]);
    }
  }

  /** Two tasks tie when priority and arrival time are both the same. */
  predicate SameRank(tasks: map<Id, Task>, a: Id, b: Id) {
    a in tasks && b in tasks && tasks[a].priority == tasks[b].priority && tasks[a].enqueuedAt == tasks[b].enqueuedAt
  }

  function Ties(tasks: map<Id, Task>, k: Id): Id -> bool {
    (x: Id) => SameRank(tasks, k, x)
  }

  lemma {:induction false} InsertStable(tasks: map<Id, Task>, queue: seq<Id>, id: Id, k: Id)
    requires id in tasks && AllKnown(tasks, queue)
    ensures Filter(Ties(tasks, k), Insert(tasks, queue, id)) == Filter(Ties(tasks, k), queue + [id])
  {
    var p := Ties(tasks, k);
    if queue == [] {
      assert queue + [id] == [id];
    } else if !NotAfter(tasks, queue[|queue| - 1], id) {
      var init, last := queue[..|queue| - 1], queue[|queue| - 1];
      assert last in queue && !(p(id) && p(last));
      assert queue == init + [last];
      calc {
        Filter(p, Insert(tasks, queue, id));
        { FilterSnoc(p, Insert(tasks, init, id), last); }
        Filter(p, Insert(tasks, init, id)) + (if p(last) then [last] else []);
        { InsertStable(tasks, init, id, k); FilterSnoc(p, init, id); }
        Filter(p, init) + (if p(id) then [id] else []) + (if p(last) then [last] else []);
        Filter(p, init) + (if p(last) then [last] else []) + (if p(id) then [id] else []);
        { FilterSnoc(p, init, last); FilterSnoc(p, queue, id); }
        Filter(p, queue + [id]);
      }
    }
  }

  /** Within ties the queue keeps its order. */
  lemma {:induction false} SortStable(tasks: map<Id, Task>, queue: seq<Id>, k: Id)
    requires AllKnown(tasks, queue)
    ensures Filter(Ties(tasks, k), StableSort(tasks, queue)) == Filter(Ties(tasks, k), queue)
  {
    if queue != [] {
      var p := Ties(tasks, k);
      var init, last := queue[..|queue| - 1], queue[|queue| - 1];
      assert queue == init + [last];
      SortSorts(tasks, init);
      calc {
        Filter(p, StableSort(tasks, queue));
        { InsertStable(tasks, StableSort(tasks, init), last, k); }
        Filter(p, StableSort(tasks, init) + [last]);
        { FilterSnoc(p, StableSort(tasks, init), last); }
        Filter(p, StableSort(tasks, init)) + (if p(last) then [last] else []);
        { SortStable(tasks, init, k); }
        Filter(p, init) + (if p(last) then [last] else []);
        { FilterSnoc(p, init, last); }
        Filter(p, queue);
      }
    }
  }

  /** Sorted and stable leaves no choice: any such arrangement is the one `StableSort` returns. */
  lemma SortUnique(tasks: map<Id, Task>, queue: seq<Id>, other: seq<Id>)
    requires AllKnown(tasks, queue) && AllKnown(tasks, other) && Sorted(tasks, other)
    requires forall k :: k in tasks ==> Filter(Ties(tasks, k), other) == Filter(Ties(tasks, k), queue)
    ensures other == StableSort(tasks, queue)
  {
    SortSorts(tasks, queue);
    forall k | k in tasks ensures Filter(Ties(tasks, k), other) == Filter(Ties(tasks, k), StableSort(tasks, queue)) {
      SortStable(tasks, queue, k);
    }
    SortedDetermined(tasks, other, StableSort(tasks, queue));
  }

  lemma {:induction false} SortedDetermined(tasks: map<Id, Task>, s: seq<Id>, t: seq<Id>)
    requires AllKnown(tasks, s) && AllKnown(tasks, t) && Sorted(tasks, s) && Sorted(tasks, t)
    requires forall k :: k in tasks ==> Filter(Ties(tasks, k), s) == Filter(Ties(tasks, k), t)
    ensures s == t
  {
    if s == [] || t == [] {
      if s != [] { LastReaches(tasks, s, t); }
      if t != [] { LastReaches(tasks, t, s); }
    } else {
      LastsTie(tasks, s, t);
      InitsAgree(tasks, s, t);
      SortedDetermined(tasks, s[..|s| - 1], t[..|t| - 1]);
      assert s == s[..|s| - 1] + [s[|s| - 1]] && t == t[..|t| - 1] + [t[|t| - 1]];
    }
  }

  /** Where every class agrees and the lasts tie, the lasts are one and the classes of the rest agree. */
  lemma InitsAgree(tasks: map<Id, Task>, s: seq<Id>, t: seq<Id>)
    requires s != [] && t != [] && s[|s| - 1] in tasks
    requires SameRank(tasks, s[|s| - 1], s[|s| - 1]) && SameRank(tasks, s[|s| - 1], t[|t| - 1])
    requires forall k :: k in tasks ==> Filter(Ties(tasks, k), s) == Filter(Ties(tasks, k), t)
    ensures s[|s| - 1] == t[|t| - 1]
    ensures forall k :: k in tasks ==> Filter(Ties(tasks, k), s[..|s| - 1]) == Filter(Ties(tasks, k), t[..|t| - 1])
  {
    OneClassAgrees(Ties(tasks, s[|s| - 1]), s, t);
    forall k | k in tasks ensures Filter(Ties(tasks, k), s[..|s| - 1]) == Filter(Ties(tasks, k), t[..|t| - 1]) {
      OneClassAgrees(Ties(tasks, k), s, t);
    }
  }

  lemma SnocInjective(a: seq<Id>, x: Id, b: seq<Id>, y: Id)
    requires a + [x] == b + [y]
    ensures a == b && x == y
  {
    assert (a + [x])[|a|] == x && (b + [y])[|b|] == y;
    assert a == (a + [x])[..|a|] && b == (b + [y])[..|b|];
  }

  lemma OneClassAgrees(p: Id -> bool, s: seq<Id>, t: seq<Id>)
    requires s != [] && t != [] && Filter(p, s) == Filter(p, t)
    ensures p(s[|s| - 1]) && p(t[|t| - 1]) ==> s[|s| - 1] == t[|t| - 1]
    ensures s[|s| - 1] == t[|t| - 1] ==> Filter(p, s[..|s| - 1]) == Filter(p, t[..|t| - 1])
  {
    var a, b := Filter(p, s[..|s| - 1]), Filter(p, t[..|t| - 1]);
    if p(s[|s| - 1]) && p(t[|t| - 1]) {
      SnocInjective(a, s[|s| - 1], b, t[|t| - 1]);
    } else {
      assert a + [] == a && b + [] == b;
    }
  }

  lemma LastsTie(tasks: map<Id, Task>, s: seq<Id>, t: seq<Id>)
    requires AllKnown(tasks, s) && AllKnown(tasks, t) && Sorted(tasks, s) && Sorted(tasks, t) && s != [] && t != []
    requires forall k :: k in tasks ==> Filter(Ties(tasks, k), s) == Filter(Ties(tasks, k), t)
    ensures s[|s| - 1] in tasks && SameRank(tasks, s[|s| - 1], s[|s| - 1]) && SameRank(tasks, s[|s| - 1], t[|t| - 1])
  {
    LastReaches(tasks, s, t);
    LastReaches(tasks, t, s);
    assert s[|s| - 1] in s && t[|t| - 1] in t;
  }

  /** The last of `s` is in `t` too, so the last of `t` is not before it. */
  lemma {:induction false} LastReaches(tasks: map<Id, Task>, s: seq<Id>, t: seq<Id>)
    requires AllKnown(tasks, s) && AllKnown(tasks, t) && s != [] && Sorted(tasks, t)
    requires forall k :: k in tasks ==> Filter(Ties(tasks, k), s) == Filter(Ties(tasks, k), t)
    ensures t != [] && NotAfter(tasks, s[|s| - 1], t[|t| - 1])
  {
    var last := s[|s| - 1];
    var p := Ties(tasks, last);
    assert last in s;
    FilterMembers(p, s);
    FilterMembers(p, t);
    assert last in Filter(p, t);
    var i :| 0 <= i < |t| && t[i] == last;
    if i < |t| - 1 {
      assert NotAfter(tasks, t[i], t[|t| - 1]);
    }
  }
}
