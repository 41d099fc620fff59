/**
 What the journal, the snapshot and the running process agree on in calm runs: no pass's check is
 overtaken by another insertion of the same call, no sender reuses a task id in the table or an
 attempt id in use, the journal and the snapshot can be written, and no crash falls between a
 start row and the save that follows it. Crashes anywhere else are allowed.
 */
module AttemptDiscipline {
  import opened Collections
  import opened ExecutionJournal
  import opened ResponderState
  import opened ResponderTasks
  import opened ResponderWorld

  /** The attempt id a queued task brings along was neither started nor is it waiting. */
  predicate NamesFreshAttempt(cfg: Config, w: World, step: Step) {
    var t := NewTask(cfg, w, step);
    t.Some? && !step.Reject? ==> AttemptUnused(w.journal, w.process.v.state, t.value.attemptId)
  }

  predicate CalmStep(cfg: Config, w: World, step: Step) {
    && NamesFreshTask(cfg, w, step) && Undisturbed(cfg, w, step) && NamesFreshAttempt(cfg, w, step)
    && match step
       case Accept(_, _, _, saved) => saved
       case HttpAccept(_, _, _, saved) => saved
       case Start(appended, saved) => appended && saved
       case LoseRun(_) => false
       case Record(_, appended) => appended
       case Reconcile(_, _, appended) => appended
       case _ => true
  }

  function CalmRule(cfg: Config): Rule {
    (w: World, step: Step) => CalmStep(cfg, w, step)
  }

  ghost predicate Calm(cfg: Config, w: World, steps: seq<Step>) {
    Throughout(cfg, w, steps, CalmRule(cfg))
  }

  lemma CalmIsCareful(cfg: Config, w: World, steps: seq<Step>)
    requires Calm(cfg, w, steps)
    ensures Throughout(cfg, w, steps, Careful(cfg)) && Throughout(cfg, w, steps, Fresh(cfg))
  {
    ThroughoutWeaker(cfg, w, steps, CalmRule(cfg), Careful(cfg));
    ThroughoutWeaker(cfg, w, steps, CalmRule(cfg), Fresh(cfg));
  }

  // ------------------------------------------------------------------------ counting

  function StartsAttempt(a: Id): Entry -> bool {
    (e: Entry) => e.entryType.Started? && e.attemptId == a
  }

  function OpenFor(journal: seq<Entry>, c: Id): Entry -> bool {
    (e: Entry) => e.entryType.Started? && e.callId == c && !ClosedIn(journal, e.attemptId)
  }

  function HasAttempt(tasks: map<Id, Task>, a: Id): Id -> bool {
    (id: Id) => id in tasks && tasks[id].attemptId == a
  }

  function StartRows(journal: seq<Entry>, a: Id): nat {
    Tally(StartsAttempt(a), journal)
  }

  function OpenAttempts(journal: seq<Entry>, c: Id): nat {
    Tally(OpenFor(journal, c), journal)
  }

  predicate AttemptUnused(journal: seq<Entry>, s: State, a: Id) {
    StartRows(journal, a) == 0 && Tally(HasAttempt(s.tasks, a), s.queue) == 0
  }

  /** An attempt is either waiting in the queue or started, and never twice. */
  ghost predicate AttemptOnce(journal: seq<Entry>, s: State, a: Id) {
    StartRows(journal, a) + Tally(HasAttempt(s.tasks, a), s.queue) <= 1
  }

  /** A call is open in the journal or in the queue, and never both; an unknown call is neither. */
  ghost predicate CallOnce(journal: seq<Entry>, s: State, c: Id) {
    OpenAttempts(journal, c) + QueuedTimes(s, c) <= One(c in s.requestIndex)
  }

  ghost predicate StateOk(journal: seq<Entry>, s: State, minted: set<Id>) {
    && WellFormed(s) && NoDuplicates(s.queue) && s.tasks.Keys <= minted
    && (forall id :: id in s.tasks ==> s.tasks[id].attemptId in minted)
    && (forall a :: AttemptOnce(journal, s, a))
    && (forall c :: CallOnce(journal, s, c))
  }

  ghost predicate JournalOk(journal: seq<Entry>, minted: set<Id>) {
    forall e :: e in journal ==> e.attemptId in minted && e.bootId in minted
  }

  lemma Monotone(journal: seq<Entry>, s: State, minted: set<Id>, more: set<Id>)
    requires StateOk(journal, s, minted) && minted <= more
    ensures StateOk(journal, s, more)
  {
  }

  // --------------------------------------------------- the journal under one more row

  lemma {:induction false} TallyDrops<T>(p: T -> bool, q: T -> bool, s: seq<T>, x: T)
    requires (forall y :: y in s && q(y) ==> p(y)) && x in s && p(x) && !q(x)
    ensures Tally(q, s) + 1 <= Tally(p, s)
  {
    var init, last := s[..|s| - 1], s[|s| - 1];
    assert s == init + [last];
    if x in init {
      TallyDrops(p, q, init, x);
    } else {
      TallyWeaker(q, p, init);
    }
  }

  lemma StartRowCounts(journal: seq<Entry>, e: Entry, a: Id, c: Id)
    requires e.entryType.Started?
    ensures StartRows(journal + [e], a) == StartRows(journal, a) + One(e.attemptId == a)
    ensures OpenAttempts(journal + [e], c) <= OpenAttempts(journal, c) + One(e.callId == c)
  {
    TallySnoc(StartsAttempt(a), journal, e);
    forall x ensures ClosedIn(journal + [e], x) == ClosedIn(journal, x) { ClosedSnoc(journal, e, x); }
    TallyCongruent(OpenFor(journal + [e], c), OpenFor(journal, c), journal);
    TallySnoc(OpenFor(journal + [e], c), journal, e);
  }

  lemma ClosingRowCounts(journal: seq<Entry>, e: Entry, a: Id, c: Id)
    requires !e.entryType.Started?
    ensures StartRows(journal + [e], a) == StartRows(journal, a)
    ensures OpenAttempts(journal + [e], c) <= OpenAttempts(journal, c)
  {
    TallySnoc(StartsAttempt(a), journal, e);
    forall x ensures ClosedIn(journal, x) ==> ClosedIn(journal + [e], x) { ClosedSnoc(journal, e, x); }
    TallyWeaker(OpenFor(journal + [e], c), OpenFor(journal, c), journal);
    TallySnoc(OpenFor(journal + [e], c), journal, e);
  }

  /** Closing an open attempt takes it off its call. */
  lemma ClosingOpenCounts(journal: seq<Entry>, e: Entry, start: Entry)
    requires !e.entryType.Started? && e.attemptId == start.attemptId
    requires start in journal && start.entryType.Started? && !ClosedIn(journal, start.attemptId)
    ensures OpenAttempts(journal + [e], start.callId) + 1 <= OpenAttempts(journal, start.callId)
  {
    var c := start.callId;
    forall x ensures ClosedIn(journal + [e], x) == (ClosedIn(journal, x) || Closes(e, x)) { ClosedSnoc(journal, e, x); }
    TallyDrops(OpenFor(journal, c), OpenFor(journal + [e], c), journal, start);
    TallySnoc(OpenFor(journal + [e], c), journal, e);
  }

  lemma ClosingKeeps(journal: seq<Entry>, e: Entry, s: State, minted: set<Id>)
    requires StateOk(journal, s, minted) && !e.entryType.Started?
    ensures StateOk(journal + [e], s, minted)
  {
    forall a ensures AttemptOnce(journal + [e], s, a) {
      ClosingRowCounts(journal, e, a, "");
      assert AttemptOnce(journal, s, a);
    }
    forall c ensures CallOnce(journal + [e], s, c) {
      ClosingRowCounts(journal, e, "", c);
      assert CallOnce(journal, s, c);
    }
  }

  lemma OpenIsCounted(journal: seq<Entry>, s: State, minted: set<Id>, e: Entry)
    requires StateOk(journal, s, minted) && e in journal && e.entryType.Started? && !ClosedIn(journal, e.attemptId)
    ensures OpenAttempts(journal, e.callId) == 1 && QueuedTimes(s, e.callId) == 0 && e.callId in s.requestIndex
  {
    var i :| 0 <= i < |journal| && journal[i] == e;
    TallyPositive(OpenFor(journal, e.callId), journal, i);
    assert CallOnce(journal, s, e.callId);
  }

  lemma StartedOnce(journal: seq<Entry>, s: State, minted: set<Id>, e: Entry, f: Entry)
    requires StateOk(journal, s, minted) && e in journal && f in journal
    requires e.entryType.Started? && f.entryType.Started? && e.attemptId == f.attemptId
    ensures e == f
  {
    var i :| 0 <= i < |journal| && journal[i] == e;
    var j :| 0 <= j < |journal| && journal[j] == f;
    assert AttemptOnce(journal, s, e.attemptId);
    if i != j {
      TallyTwo(StartsAttempt(e.attemptId), journal, if i < j then i else j, if i < j then j else i);
    }
  }

  // ---------------------------------------------------------------- states under a step

  lemma NotQueued(s: State, c: Id, id: Id)
    requires QueuedTimes(s, c) == 0 && id in s.tasks && s.tasks[id].requestId == c
    ensures id !in s.queue
  {
    TallyZero(ForCall(s.tasks, c), s.queue);
  }

  lemma AttemptUntouched(tasks: map<Id, Task>, id: Id, t: Task, queue: seq<Id>, a: Id)
    requires id !in queue || (id in tasks && tasks[id].attemptId == t.attemptId)
    ensures Tally(HasAttempt(tasks[id := t], a), queue) == Tally(HasAttempt(tasks, a), queue)
  {
  }

  lemma NewAttemptUnused(journal: seq<Entry>, s: State, minted: set<Id>, a: Id)
    requires JournalOk(journal, minted) && a !in minted && (forall id :: id in s.tasks ==> s.tasks[id].attemptId in minted)
    ensures AttemptUnused(journal, s, a)
  {
    TallyZero(StartsAttempt(a), journal);
    TallyZero(HasAttempt(s.tasks, a), s.queue);
  }

  lemma PushUnique(queue: seq<Id>, id: Id)
    requires NoDuplicates(queue) && id !in queue
    ensures NoDuplicates(queue + [id])
  {
  }

  lemma SortUniqueIds(tasks: map<Id, Task>, queue: seq<Id>)
    requires NoDuplicates(queue)
    ensures NoDuplicates(StableSort(tasks, queue))
  {
    SortPermutes(tasks, queue);
    NoDuplicatesByMultiset(queue, StableSort(tasks, queue));
  }

  lemma NoDuplicatesByMultiset<T>(s: seq<T>, t: seq<T>)
    requires NoDuplicates(s) && multiset(s) == multiset(t)
    ensures NoDuplicates(t)
  {
    forall i, j | 0 <= i < j < |t| ensures t[i] != t[j] {
      if t[i] == t[j] {
        assert t == t[..i] + [t[i]] + t[i + 1..j] + [t[j]] + t[j + 1..];
        assert multiset(t)[t[i]] >= 2;
        UniqueMultiplicity(s, t[i]);
      }
    }
  }

  lemma {:induction false} UniqueMultiplicity<T>(s: seq<T>, x: T)
    requires NoDuplicates(s)
    ensures multiset(s)[x] <= 1
  {
    if s != [] {
      var init, last := s[..|s| - 1], s[|s| - 1];
      assert s == init + [last];
      UniqueMultiplicity(init, x);
      assert last !in init;
      assert last !in multiset(init);
    }
  }

  lemma RememberOk(journal: seq<Entry>, s: State, t: Task, minted: set<Id>)
    requires StateOk(journal, s, minted) && t.taskId !in s.tasks && t.taskId in minted && t.attemptId in minted
    ensures StateOk(journal, Remember(s, t), minted)
  {
    var s' := Remember(s, t);
    forall a ensures AttemptOnce(journal, s', a) {
      AttemptUntouched(s.tasks, t.taskId, t, s.queue, a);
      assert AttemptOnce(journal, s, a);
    }
    forall c ensures CallOnce(journal, s', c) {
      RememberKeeps(s, t, c);
      assert CallOnce(journal, s, c);
    }
    RememberKeeps(s, t, "");
  }

  lemma EnqueueOk(journal: seq<Entry>, s: State, t: Task, minted: set<Id>, more: set<Id>)
    requires StateOk(journal, s, minted) && minted <= more
    requires t.taskId !in s.tasks && AttemptUnused(journal, s, t.attemptId) && t.taskId in more && t.attemptId in more
    requires t.requestId !in s.requestIndex
    ensures StateOk(journal, Enqueue(s, t), more)
  {
    Monotone(journal, s, minted, more);
    RememberOk(journal, s, t, more);
    var r, s' := Remember(s, t), Enqueue(s, t);
    PushUnique(s.queue, t.taskId);
    SortUniqueIds(r.tasks, s.queue + [t.taskId]);
    EnqueueCounts(s, t, "");
    forall a ensures AttemptOnce(journal, s', a) {
      SortTally(HasAttempt(r.tasks, a), r.tasks, s.queue + [t.taskId]);
      TallySnoc(HasAttempt(r.tasks, a), s.queue, t.taskId);
      AttemptUntouched(s.tasks, t.taskId, t, s.queue, a);
      assert AttemptOnce(journal, s, a);
    }
    forall c ensures CallOnce(journal, s', c) {
      EnqueueCounts(s, t, c);
      assert CallOnce(journal, s, c);
    }
  }

  lemma StartOk(cfg: Config, journal: seq<Entry>, s: State, minted: set<Id>, bootId: Id)
    requires StateOk(journal, s, minted) && s.queue != []
    ensures StateOk(journal + [StartEntry(cfg, bootId, s.tasks[s.queue[0]])], StartHead(cfg, s), minted)
  {
    var t := s.tasks[s.queue[0]];
    var e, s' := StartEntry(cfg, bootId, t), StartHead(cfg, s);
    StartCounts(cfg, s, "");
    forall a ensures AttemptOnce(journal + [e], s', a) {
      StartRowCounts(journal, e, a, "");
      TallyHead(HasAttempt(s.tasks, a), s.queue);
      AttemptUntouched(s.tasks, s.queue[0], s'.tasks[s.queue[0]], s.queue[1..], a);
      assert AttemptOnce(journal, s, a);
    }
    forall c ensures CallOnce(journal + [e], s', c) {
      StartRowCounts(journal, e, "", c);
      StartCounts(cfg, s, c);
      assert CallOnce(journal, s, c);
    }
  }

  lemma UpdateOk(journal: seq<Entry>, s: State, id: Id, t: Task, minted: set<Id>)
    requires StateOk(journal, s, minted) && id in s.tasks
    requires t.taskId == id && t.requestId == s.tasks[id].requestId && t.attemptId == s.tasks[id].attemptId
    ensures StateOk(journal, s.(tasks := s.tasks[id := t]), minted)
  {
    var s' := s.(tasks := s.tasks[id := t]);
    UpdateCounts(s, id, t, "");
    forall a ensures AttemptOnce(journal, s', a) {
      AttemptUntouched(s.tasks, id, t, s.queue, a);
      assert AttemptOnce(journal, s, a);
    }
    forall c ensures CallOnce(journal, s', c) {
      UpdateCounts(s, id, t, c);
      assert CallOnce(journal, s, c);
    }
  }

  /** Superseding an open attempt moves its call from the journal's open set to the queue, under a fresh attempt. */
  lemma RerunOk(journal: seq<Entry>, s: State, e: Entry, bootId: Id, newAttempt: Id, minted: set<Id>)
    requires StateOk(journal, s, minted) && JournalOk(journal, minted) && newAttempt !in minted
    requires e in journal && e.entryType.Started? && !ClosedIn(journal, e.attemptId)
    ensures StateOk(journal + [SupersededEntry(bootId, e)], AfterDecision(s, e, Rerun, newAttempt), minted + {newAttempt})
    ensures e.callId in s.requestIndex && s.requestIndex[e.callId] !in s.queue
  {
    OpenIsCounted(journal, s, minted, e);
    var id := s.requestIndex[e.callId];
    NotQueued(s, e.callId, id);
    var row := SupersededEntry(bootId, e);
    var s' := AfterDecision(s, e, Rerun, newAttempt);
    assert s'.queue == s.queue + [id];
    DecisionCounts(s, e, Rerun, newAttempt, "");
    forall a ensures AttemptOnce(journal + [row], s', a) {
      ClosingRowCounts(journal, row, a, "");
      AttemptUntouched(s.tasks, id, s'.tasks[id], s.queue, a);
      TallySnoc(HasAttempt(s'.tasks, a), s.queue, id);
      assert AttemptOnce(journal, s, a);
      NewAttemptUnused(journal, s, minted, newAttempt);
    }
    forall c ensures CallOnce(journal + [row], s', c) {
      ClosingRowCounts(journal, row, "", c);
      ClosingOpenCounts(journal, row, e);
      DecisionCounts(s, e, Rerun, newAttempt, c);
      assert CallOnce(journal, s, c);
    }
  }
}
