/**
 What an inbox pass makes of the envelopes it takes up, said of their fields: the task that is
 admitted, the one that is turned away, what is left alone, what is sent again, and who runs first.
 */
module Admission {
  import opened Collections
  import opened LocalHub
  import opened ResponderRuntime
  import opened ResponderState
  import opened ResponderTasks
  import opened Results
  import ResultBuilder

  /** How urgent a request is: the sender's number, smaller first, and five if there is none or zero. */
  function Rank(env: TaskEnvelope): int {
    if env.priority == 0 then 5 else env.priority
  }

  /** The request an envelope stands for, drawn when it names none. */
  function RequestOf(env: TaskEnvelope, ids: FreshIds): Id {
    if env.requestId.Some? && env.requestId.value != "" then env.requestId.value else ids.requestId
  }

  function TaskOf(env: TaskEnvelope, ids: FreshIds): Id {
    if env.taskId.Some? && env.taskId.value != "" then env.taskId.value else ids.taskId
  }

  /** For this responder: it names no other responder, and no hotline that is not served here. */
  predicate Meant(env: TaskEnvelope, identity: Identity) {
    && (env.responderId.None? || env.responderId.value == "" || env.responderId.value == identity.responderId)
    && (env.hotlineId.None? || env.hotlineId.value == "" || env.hotlineId.value in identity.hotlineIds)
  }

  predicate Known(s: State, env: TaskEnvelope) {
    env.requestId.Some? && env.requestId.value in s.requestIndex && s.requestIndex[env.requestId.value] in s.tasks
  }

  /** A task is what its envelope asked for. */
  predicate AsAsked(t: Task, env: TaskEnvelope, identity: Identity, ids: FreshIds, now: int)
    requires identity.hotlineIds != []
  {
    && t.taskId == TaskOf(env, ids) && t.requestId == RequestOf(env, ids) && t.responderId == identity.responderId
    && (if env.hotlineId.Some? && env.hotlineId.value != "" then t.hotlineId == env.hotlineId.value else t.hotlineId == identity.hotlineIds[0])
    && (if env.attemptId.Some? && env.attemptId.value != "" then t.attemptId == env.attemptId.value else t.attemptId == ids.attemptId)
    && t.displayCode == env.displayCode && t.priority == Rank(env) && t.enqueuedAt == now
    && (env.from.Some? && env.from.value != "" ==> t.replyTo == env.from.value)
  }

  /** Its request leads to the task an envelope named or had drawn for it, and that is what was asked for. */
  ghost predicate HoldsRequest(s: State, env: TaskEnvelope, identity: Identity, ids: FreshIds, now: int)
    requires identity.hotlineIds != []
  {
    var c, id := RequestOf(env, ids), TaskOf(env, ids);
    c in s.requestIndex && s.requestIndex[c] == id && id in s.tasks && AsAsked(s.tasks[id], env, identity, ids, now)
  }

  lemma CreatedAsAsked(env: TaskEnvelope, identity: Identity, ids: FreshIds, now: int)
    requires identity.hotlineIds != [] && Meant(env, identity)
    ensures var t := CreateTask(env, identity, ids, now);
            AsAsked(t, env, identity, ids, now) && t.status == Queued && t.resultPackage == None && !t.reconciled && t.executionArtifacts == []
  {
  }

  /** Requests and tasks are still there, and of the tasks no more than status and class has changed. */
  ghost predicate TableKept(s: State, s': State) {
    && (forall c :: c in s.requestIndex ==> c in s'.requestIndex && s'.requestIndex[c] == s.requestIndex[c])
    && forall id :: id in s.tasks ==> id in s'.tasks && SameTask(s.tasks[id], s'.tasks[id])
  }

  predicate SameTask(t: Task, t': Task) {
    t' == t.(status := t'.status, recoverability := t'.recoverability)
  }

  lemma RequestStaysHeld(s: State, s': State, env: TaskEnvelope, identity: Identity, ids: FreshIds, now: int)
    requires identity.hotlineIds != [] && HoldsRequest(s, env, identity, ids, now) && TableKept(s, s')
    ensures HoldsRequest(s', env, identity, ids, now)
  {
    assert SameTask(s.tasks[TaskOf(env, ids)], s'.tasks[TaskOf(env, ids)]);
  }

  // ------------------------------------------------------------------ what scheduling leaves

  lemma StartKeeps(cfg: Config, s: State)
    requires s.queue != []
    ensures var s' := StartHead(cfg, s);
            && TableKept(s, s') && s'.tasks.Keys == s.tasks.Keys && s'.requestIndex == s.requestIndex
            && (forall id :: id in s.tasks ==> s'.tasks[id].status == s.tasks[id].status || s'.tasks[id].status == Running)
            && (forall id :: id in s'.queue ==> id in s.queue)
            && (Sorted(s.tasks, s.queue) ==> Sorted(s'.tasks, s'.queue))
  {
  }

  /** Starting tasks touches their status and recorded class only. */
  lemma {:induction false} SchedulingKeeps(cfg: Config, s: State, maxWorkers: int)
    ensures var s' := Scheduled(cfg, s, maxWorkers);
            && TableKept(s, s') && s'.tasks.Keys == s.tasks.Keys && s'.requestIndex == s.requestIndex
            && (forall id :: id in s.tasks ==> s'.tasks[id].status == s.tasks[id].status || s'.tasks[id].status == Running)
            && (forall id :: id in s'.queue ==> id in s.queue)
            && (Sorted(s.tasks, s.queue) ==> Sorted(s'.tasks, s'.queue))
    decreases |s.queue|
  {
    if |s.active| < maxWorkers && s.queue != [] {
      var next := StartHead(cfg, s);
      StartKeeps(cfg, s);
      SchedulingKeeps(cfg, next, maxWorkers);
      KeptTwice(s, next, Scheduled(cfg, next, maxWorkers));
    }
  }

  lemma KeptTwice(s: State, s1: State, s2: State)
    requires TableKept(s, s1) && TableKept(s1, s2)
    ensures TableKept(s, s2)
  {
    forall id | id in s.tasks ensures id in s2.tasks && SameTask(s.tasks[id], s2.tasks[id]) {
      assert SameTask(s.tasks[id], s1.tasks[id]) && SameTask(s1.tasks[id], s2.tasks[id]);
    }
  }

  // ------------------------------------------------------------------------ one envelope

  /** An envelope meant for this responder, of an unknown request, and welcome: its record holds what it asked for. */
  lemma AdmittedAsAsked(cfg: Config, s: State, env: TaskEnvelope, ids: FreshIds, now: int)
    requires cfg.identity.hotlineIds != [] && Meant(env, cfg.identity) && !Known(s, env)
    ensures var s' := TakeIn(cfg, s, env, ids, now, Welcome);
            && HoldsRequest(s', env, cfg.identity, ids, now)
            && var t := s'.tasks[TaskOf(env, ids)];
               (t.status == Queued || t.status == Running) && t.resultPackage == None && !t.reconciled
  {
    var t := CreateTask(env, cfg.identity, ids, now);
    CreatedAsAsked(env, cfg.identity, ids, now);
    var queued := Enqueue(s, t);
    assert HoldsRequest(queued, env, cfg.identity, ids, now) && queued.tasks[TaskOf(env, ids)] == t;
    SchedulingKeeps(cfg, queued, MaxWorkers(None, s.workers));
    RequestStaysHeld(queued, Scheduled(cfg, queued, MaxWorkers(None, s.workers)), env, cfg.identity, ids, now);
    assert SameTask(t, Scheduled(cfg, queued, MaxWorkers(None, s.workers)).tasks[TaskOf(env, ids)]);
  }

  lemma RejectionIsAnswered(signer: ResultBuilder.Signer, task: Task, code: string)
    ensures var t := ResultBuilder.RejectTask(signer, task, code);
            && t == task.(status := t.status, resultPackage := t.resultPackage) && t.status == Completed && t.resultPackage.Some?
            && Answers(signer, t.resultPackage.value, task.requestId, code)
  {
    if IgnoresSignature(signer.crypto) {
      SignVerifies(signer.crypto, signer.key, signer.key, ResultBuilder.ErrorPayload(task, code, true));
    }
  }

  /** A signed error with the code for the request, and nothing else in it. */
  ghost predicate Answers(signer: ResultBuilder.Signer, body: ResultPackage, requestId: Id, code: string) {
    && body.status == Error && body.errorCode == Some(code) && body.requestId == requestId && body.output == None && body.artifacts == []
    && (IgnoresSignature(signer.crypto) ==> SignatureVerifies(signer.crypto, signer.key, body))
  }

  /** Turned away, it is answered at once: a signed error with the code, to the sender, and nothing is queued. */
  lemma TurnedAwayIsAnswered(cfg: Config, s: State, env: TaskEnvelope, ids: FreshIds, now: int, code: string)
    requires cfg.identity.hotlineIds != [] && Meant(env, cfg.identity) && !Known(s, env)
    ensures var s' := TakeIn(cfg, s, env, ids, now, Turned(code));
            && HoldsRequest(s', env, cfg.identity, ids, now) && s'.queue == s.queue && s'.active == s.active
            && var t := s'.tasks[TaskOf(env, ids)];
               t.status == Completed && t.resultPackage.Some? && Answers(cfg.signer, t.resultPackage.value, RequestOf(env, ids), code)
  {
    CreatedAsAsked(env, cfg.identity, ids, now);
    RejectionIsAnswered(cfg.signer, CreateTask(env, cfg.identity, ids, now), code);
  }

  /** Meant for someone else, it changes nothing, is answered by nothing, and stays where it is. */
  lemma OthersAreLeftAlone(cfg: Config, s: State, queue: seq<TaskEnvelope>, env: TaskEnvelope, ids: FreshIds, now: int, intake: Intake)
    requires cfg.identity.hotlineIds != [] && !Meant(env, cfg.identity)
    ensures TakeIn(cfg, s, env, ids, now, intake) == s && Replay(cfg, s, env) == []
    ensures AckAll(cfg, queue, [env]) == queue
  {
    NothingAcked(TaskMessageId, IsServed(cfg), queue, [env]);
  }

  /** A request that is known changes nothing; if it is finished, its stored package goes out again, to whoever asks now. */
  lemma KnownIsReplayed(cfg: Config, s: State, env: TaskEnvelope, ids: FreshIds, now: int, intake: Intake)
    requires cfg.identity.hotlineIds != [] && Meant(env, cfg.identity) && Known(s, env)
    ensures TakeIn(cfg, s, env, ids, now, intake) == s
    ensures var t, out := s.tasks[s.requestIndex[env.requestId.value]], Replay(cfg, s, env);
            && (t.resultPackage == None ==> out == [])
            && (t.resultPackage.Some? ==>
                  |out| == 1 && out[0].resultPackage == t.resultPackage && out[0].executionArtifacts == t.executionArtifacts
                  && out[0].requestId == t.requestId
                  && out[0].replyTo == if env.from.Some? && env.from.value != "" then env.from.value else t.replyTo)
  {
  }

  // ----------------------------------------------------------------------- over a whole pass

  /** No envelope of the pass brings a task id that is in the table, and no drawn request id is known. */
  ghost predicate NamesAreFresh(cfg: Config, s: State, items: seq<TaskEnvelope>, ids: nat -> FreshIds, clock: nat -> int, intakes: nat -> Intake)
    requires cfg.identity.hotlineIds != []
  {
    forall k: nat :: k < |items| ==> FreshAt(TakeInAll(cfg, s, items[..k], ids, clock, intakes), items[k], ids(k))
  }

  predicate FreshAt(s: State, env: TaskEnvelope, ids: FreshIds) {
    Known(s, env) || (TaskOf(env, ids) !in s.tasks && RequestOf(env, ids) !in s.requestIndex)
  }

  /** The k-th envelope of the pass was admitted when its turn came. */
  ghost predicate AdmittedAt(cfg: Config, s: State, items: seq<TaskEnvelope>, k: nat, ids: nat -> FreshIds, clock: nat -> int, intakes: nat -> Intake)
    requires cfg.identity.hotlineIds != []
  {
    && k < |items| && Meant(items[k], cfg.identity) && intakes(k).Welcome?
    && !Known(TakeInAll(cfg, s, items[..k], ids, clock, intakes), items[k])
  }

  lemma OneMoreTurn(cfg: Config, s: State, items: seq<TaskEnvelope>, k: nat, ids: nat -> FreshIds, clock: nat -> int, intakes: nat -> Intake)
    requires cfg.identity.hotlineIds != [] && 0 < k <= |items|
    ensures TakeInAll(cfg, s, items[..k], ids, clock, intakes)
         == TakeIn(cfg, TakeInAll(cfg, s, items[..k - 1], ids, clock, intakes), items[k - 1], ids(k - 1), clock(k - 1), intakes(k - 1))
  {
    assert items[..k][..k - 1] == items[..k - 1];
  }

  lemma TurnIsFresh(cfg: Config, s: State, items: seq<TaskEnvelope>, k: nat, ids: nat -> FreshIds, clock: nat -> int, intakes: nat -> Intake)
    requires cfg.identity.hotlineIds != [] && k < |items| && NamesAreFresh(cfg, s, items, ids, clock, intakes)
    ensures FreshAt(TakeInAll(cfg, s, items[..k], ids, clock, intakes), items[k], ids(k))
  {
  }

  /** A turn under fresh names leaves every record, as far as it holds what was asked for, and every rank. */
  lemma TurnKeeps(cfg: Config, s: State, env: TaskEnvelope, ids: FreshIds, now: int, intake: Intake)
    requires cfg.identity.hotlineIds != [] && FreshAt(s, env, ids) && AllKnown(s.tasks, s.queue)
    ensures var s' := TakeIn(cfg, s, env, ids, now, intake);
            && TableKept(s, s') && AllKnown(s'.tasks, s'.queue)
            && (Sorted(s.tasks, s.queue) || (Meant(env, cfg.identity) && !Known(s, env) && intake.Welcome?) ==> Sorted(s'.tasks, s'.queue))
  {
    if Meant(env, cfg.identity) && !Known(s, env) {
      var t := CreateTask(env, cfg.identity, ids, now);
      NewTaskKeepsTable(s, t);
      if intake.Welcome? {
        QueueingSorts(s, t);
        SchedulingKeeps(cfg, Enqueue(s, t), MaxWorkers(None, s.workers));
        KeptTwice(s, Enqueue(s, t), Scheduled(cfg, Enqueue(s, t), MaxWorkers(None, s.workers)));
      } else {
        NewTaskKeepsTable(s, ResultBuilder.RejectTask(cfg.signer, t, intake.code));
      }
    }
  }

  lemma NewTaskKeepsTable(s: State, t: Task)
    requires t.taskId !in s.tasks && t.requestId !in s.requestIndex
    ensures TableKept(s, Remember(s, t)) && TableKept(s, Enqueue(s, t))
  {
  }

  lemma QueueingSorts(s: State, t: Task)
    requires AllKnown(s.tasks, s.queue)
    ensures AllKnown(Enqueue(s, t).tasks, Enqueue(s, t).queue) && Sorted(Enqueue(s, t).tasks, Enqueue(s, t).queue)
  {
    var r := Remember(s, t);
    SortMembers(r.tasks, s.queue + [t.taskId]);
    SortSorts(r.tasks, s.queue + [t.taskId]);
  }

  lemma {:induction false} PassStaysKnown(cfg: Config, s: State, items: seq<TaskEnvelope>, n: nat, ids: nat -> FreshIds, clock: nat -> int, intakes: nat -> Intake)
    requires cfg.identity.hotlineIds != [] && n <= |items| && NamesAreFresh(cfg, s, items, ids, clock, intakes) && AllKnown(s.tasks, s.queue)
    ensures var s' := TakeInAll(cfg, s, items[..n], ids, clock, intakes); AllKnown(s'.tasks, s'.queue)
  {
    if n > 0 {
      PassStaysKnown(cfg, s, items, n - 1, ids, clock, intakes);
      OneMoreTurn(cfg, s, items, n, ids, clock, intakes);
      TurnKeeps(cfg, TakeInAll(cfg, s, items[..n - 1], ids, clock, intakes), items[n - 1], ids(n - 1), clock(n - 1), intakes(n - 1));
    }
  }

  /** From its admission on the record stays, and the queue is in order. */
  lemma {:induction false} AdmittedStays(cfg: Config, s: State, items: seq<TaskEnvelope>, k: nat, n: nat, ids: nat -> FreshIds, clock: nat -> int, intakes: nat -> Intake)
    requires cfg.identity.hotlineIds != [] && k < n <= |items| && NamesAreFresh(cfg, s, items, ids, clock, intakes) && AllKnown(s.tasks, s.queue)
    requires AdmittedAt(cfg, s, items, k, ids, clock, intakes)
    ensures var s' := TakeInAll(cfg, s, items[..n], ids, clock, intakes);
            HoldsRequest(s', items[k], cfg.identity, ids(k), clock(k)) && Sorted(s'.tasks, s'.queue)
    decreases n
  {
    if k == n - 1 {
      AdmittedInTurn(cfg, s, items, k, ids, clock, intakes);
    } else {
      AdmittedStays(cfg, s, items, k, n - 1, ids, clock, intakes);
      StaysOneTurnMore(cfg, s, items, n, ids, clock, intakes, items[k], ids(k), clock(k));
    }
  }

  lemma AdmittedInTurn(cfg: Config, s: State, items: seq<TaskEnvelope>, k: nat, ids: nat -> FreshIds, clock: nat -> int, intakes: nat -> Intake)
    requires cfg.identity.hotlineIds != [] && k < |items| && NamesAreFresh(cfg, s, items, ids, clock, intakes) && AllKnown(s.tasks, s.queue)
    requires AdmittedAt(cfg, s, items, k, ids, clock, intakes)
    ensures var s' := TakeInAll(cfg, s, items[..k + 1], ids, clock, intakes);
            HoldsRequest(s', items[k], cfg.identity, ids(k), clock(k)) && Sorted(s'.tasks, s'.queue)
  {
    LastTurn(cfg, s, items, k + 1, ids, clock, intakes);
    JustAdmitted(cfg, TakeInAll(cfg, s, items[..k], ids, clock, intakes), items[k], ids(k), clock(k));
  }

  lemma StaysOneTurnMore(cfg: Config, s: State, items: seq<TaskEnvelope>, n: nat, ids: nat -> FreshIds, clock: nat -> int, intakes: nat -> Intake,
                         earlier: TaskEnvelope, earlierIds: FreshIds, arrived: int)
    requires cfg.identity.hotlineIds != [] && 0 < n <= |items| && NamesAreFresh(cfg, s, items, ids, clock, intakes) && AllKnown(s.tasks, s.queue)
    requires var before := TakeInAll(cfg, s, items[..n - 1], ids, clock, intakes);
             HoldsRequest(before, earlier, cfg.identity, earlierIds, arrived) && Sorted(before.tasks, before.queue)
    ensures var s' := TakeInAll(cfg, s, items[..n], ids, clock, intakes);
            HoldsRequest(s', earlier, cfg.identity, earlierIds, arrived) && Sorted(s'.tasks, s'.queue)
  {
    LastTurn(cfg, s, items, n, ids, clock, intakes);
    StaysThroughTurn(cfg, TakeInAll(cfg, s, items[..n - 1], ids, clock, intakes), items[n - 1], ids(n - 1), clock(n - 1), intakes(n - 1),
                     earlier, earlierIds, arrived);
  }

  lemma LastTurn(cfg: Config, s: State, items: seq<TaskEnvelope>, n: nat, ids: nat -> FreshIds, clock: nat -> int, intakes: nat -> Intake)
    requires cfg.identity.hotlineIds != [] && 0 < n <= |items| && NamesAreFresh(cfg, s, items, ids, clock, intakes) && AllKnown(s.tasks, s.queue)
    ensures var before := TakeInAll(cfg, s, items[..n - 1], ids, clock, intakes);
            && AllKnown(before.tasks, before.queue) && FreshAt(before, items[n - 1], ids(n - 1))
            && TakeInAll(cfg, s, items[..n], ids, clock, intakes)
            == TakeIn(cfg, before, items[n - 1], ids(n - 1), clock(n - 1), intakes(n - 1))
  {
    PassStaysKnown(cfg, s, items, n - 1, ids, clock, intakes);
    OneMoreTurn(cfg, s, items, n, ids, clock, intakes);
    TurnIsFresh(cfg, s, items, n - 1, ids, clock, intakes);
  }

  lemma JustAdmitted(cfg: Config, s: State, env: TaskEnvelope, ids: FreshIds, now: int)
    requires cfg.identity.hotlineIds != [] && Meant(env, cfg.identity) && !Known(s, env) && FreshAt(s, env, ids) && AllKnown(s.tasks, s.queue)
    ensures var s' := TakeIn(cfg, s, env, ids, now, Welcome); HoldsRequest(s', env, cfg.identity, ids, now) && Sorted(s'.tasks, s'.queue)
  {
    AdmittedAsAsked(cfg, s, env, ids, now);
    TurnKeeps(cfg, s, env, ids, now, Welcome);
  }

  lemma StaysThroughTurn(cfg: Config, s: State, env: TaskEnvelope, ids: FreshIds, now: int, intake: Intake,
                         earlier: TaskEnvelope, earlierIds: FreshIds, arrived: int)
    requires cfg.identity.hotlineIds != [] && FreshAt(s, env, ids) && AllKnown(s.tasks, s.queue)
    requires HoldsRequest(s, earlier, cfg.identity, earlierIds, arrived) && Sorted(s.tasks, s.queue)
    ensures var s' := TakeIn(cfg, s, env, ids, now, intake);
            HoldsRequest(s', earlier, cfg.identity, earlierIds, arrived) && Sorted(s'.tasks, s'.queue)
  {
    TurnKeeps(cfg, s, env, ids, now, intake);
    RequestStaysHeld(s, TakeIn(cfg, s, env, ids, now, intake), earlier, cfg.identity, earlierIds, arrived);
  }

  lemma OrderedByRank(s: State, identity: Identity, env: TaskEnvelope, ids: FreshIds, now: int, a: nat,
                      env': TaskEnvelope, ids': FreshIds, now': int, b: nat)
    requires identity.hotlineIds != [] && Sorted(s.tasks, s.queue)
    requires HoldsRequest(s, env, identity, ids, now) && HoldsRequest(s, env', identity, ids', now')
    requires Rank(env) < Rank(env') || (Rank(env) == Rank(env') && now < now')
    requires a < |s.queue| && b < |s.queue| && s.queue[a] == TaskOf(env, ids) && s.queue[b] == TaskOf(env', ids')
    ensures a < b
  {
    assert b < a ==> NotAfter(s.tasks, s.queue[b], s.queue[a]);
  }

  /**
   The urgent first: of two requests one pass admitted and that still wait after it, the one whose
   envelope carries the smaller priority is ahead in the queue, and under equal priorities the one
   that arrived earlier. The number is the envelope's own, with five standing for none.
   */
  lemma UrgentFirst(cfg: Config, s: State, items: seq<TaskEnvelope>, i: nat, j: nat, a: nat, b: nat,
                    ids: nat -> FreshIds, clock: nat -> int, intakes: nat -> Intake)
    requires cfg.identity.hotlineIds != [] && NamesAreFresh(cfg, s, items, ids, clock, intakes) && AllKnown(s.tasks, s.queue)
    requires AdmittedAt(cfg, s, items, i, ids, clock, intakes) && AdmittedAt(cfg, s, items, j, ids, clock, intakes)
    requires Rank(items[i]) < Rank(items[j]) || (Rank(items[i]) == Rank(items[j]) && clock(i) < clock(j))
    requires var queue := TakeInAll(cfg, s, items, ids, clock, intakes).queue;
             a < |queue| && b < |queue| && queue[a] == TaskOf(items[i], ids(i)) && queue[b] == TaskOf(items[j], ids(j))
    ensures a < b
  {
    assert items[..|items|] == items;
    AdmittedStays(cfg, s, items, i, |items|, ids, clock, intakes);
    AdmittedStays(cfg, s, items, j, |items|, ids, clock, intakes);
    OrderedByRank(TakeInAll(cfg, s, items, ids, clock, intakes), cfg.identity, items[i], ids(i), clock(i), a, items[j], ids(j), clock(j), b);
  }
}
