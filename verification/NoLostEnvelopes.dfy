/**
 Task envelopes in calm runs whose inbox passes do not overlap: they leave the inbox only by an
 ack, and only once a snapshot knows their request.
 */
module NoLostEnvelopes {
  import opened AttemptDiscipline
  import opened Collections
  import opened DuplicateChecks
  import opened LocalHub
  import opened ResponderState
  import opened ResponderTasks
  import opened ResponderWorld
  import opened Results

  function Orderly(cfg: Config): Rule {
    (w: World, step: Step) => CalmStep(cfg, w, step) && OnePass(cfg, w, step)
  }

  function Envelopes(acked: seq<Held>): multiset<TaskEnvelope> {
    if acked == [] then multiset{} else Envelopes(acked[..|acked| - 1]) + multiset{acked[|acked| - 1].env}
  }

  /** The call a held envelope stands for is the one it names, if it names one. */
  predicate Names(h: Held) {
    Given(h.env.requestId) ==> h.callId == h.env.requestId.value
  }

  ghost predicate QueueOk(w: World) {
    && multiset(w.delivered) == multiset(w.inbox) + Envelopes(w.acked)
    && (forall d, e :: d in w.delivered && e in w.delivered && d.messageId == e.messageId ==> d == e)
    && (forall h :: h in w.acked ==> Names(h) && h.callId in w.snapshot.requestIndex)
  }

  ghost predicate HeldOk(w: World, s: State, h: Held) {
    && h.env in w.inbox
    && (h.stage != Checked ==> Names(h) && h.callId in s.requestIndex)
    && (h.stage == Cleared ==> h.callId in w.snapshot.requestIndex)
  }

  /** What is known is in the snapshot, or is what the pass under way has just inserted. */
  ghost predicate HoldingOk(w: World, v: Volatile) {
    && |v.held| <= 1 && (forall h :: h in v.held ==> HeldOk(w, v.state, h))
    && (forall c :: c in w.snapshot.requestIndex ==> c in v.state.requestIndex)
    && (forall c :: c in v.state.requestIndex && c !in w.snapshot.requestIndex ==>
          |v.held| == 1 && v.held[0].stage == Inserted && v.held[0].callId == c)
  }

  ghost predicate NothingLost(w: World) {
    QueueOk(w) && (w.process.Up? ==> HoldingOk(w, w.process.v))
  }

  // ---------------------------------------------------------------------- step by step

  lemma AckKeeps(cfg: Config, w: World, k: nat)
    requires NothingLost(w) && Enabled(cfg, w, AckHeld(k))
    ensures NothingLost(Next(cfg, w, AckHeld(k)))
  {
    var h := w.process.v.held[k];
    assert h in w.process.v.held;
    OneAcked(w.delivered, w.inbox, w.acked, h);
  }

  /** An ack moves one envelope from the inbox to the acked ones. */
  lemma OneAcked(delivered: seq<TaskEnvelope>, inbox: seq<TaskEnvelope>, acked: seq<Held>, h: Held)
    requires multiset(delivered) == multiset(inbox) + Envelopes(acked) && h.env in inbox
    requires forall d, e :: d in delivered && e in delivered && d.messageId == e.messageId ==> d == e
    ensures multiset(delivered) == multiset(RemoveFirst(TaskMessageId, inbox, h.env.messageId)) + Envelopes(acked + [h])
  {
    forall d | d in inbox ensures d in delivered {
      assert d in multiset(inbox);
      assert d in multiset(delivered);
    }
    RemoveOne(TaskMessageId, inbox, h.env);
    assert (acked + [h])[..|acked|] == acked;
  }

  lemma DeliverKeeps(cfg: Config, w: World, env: TaskEnvelope)
    requires NothingLost(w) && Enabled(cfg, w, Deliver(env))
    ensures NothingLost(Next(cfg, w, Deliver(env)))
  {
  }

  /** A save makes everything the process knows durable, and frees the envelope that waited for it. */
  lemma SaveLosesNothing(w: World, v: Volatile)
    requires QueueOk(w) && |v.held| <= 1
    requires forall c :: c in w.snapshot.requestIndex ==> c in v.state.requestIndex
    requires forall h :: h in v.held ==> h.env in w.inbox && (h.stage != Checked ==> Names(h) && h.callId in v.state.requestIndex)
    ensures NothingLost(SaveNow(w, v))
  {
  }

  /** What a pass or a post inserted is known, and held by the pass until it is saved. */
  lemma InsertedIsHeld(w: World, v: Volatile, step: Step, t: Task)
    requires HoldingOk(w, v) && (step.Accept? || step.HttpAccept? || step.Reject?)
    requires step.Accept? || step.Reject? ==> step.k < |v.held| && Names(v.held[step.k].(callId := t.requestId))
    ensures var v1 := Inserting(v, step, t);
            && |v1.held| <= 1 && v1.state.requestIndex == v.state.requestIndex[t.requestId := t.taskId]
            && (forall h :: h in v1.held ==> h.env in w.inbox && (h.stage != Checked ==> Names(h) && h.callId in v1.state.requestIndex))
            && (step.Accept? || step.Reject? ==> v1.held == [Held(v.held[0].env, t.requestId, Inserted)])
  {
    var v1 := Inserting(v, step, t);
    if |v.held| == 1 {
      assert v.held[0] in v.held && HeldOk(w, v.state, v.held[0]);
      assert v1.held == [v1.held[0]];
    }
  }

  lemma SavedInsertLosesNothing(w: World, v: Volatile, step: Step, t: Task)
    requires NothingLost(w) && w.process == Up(v) && (step.Accept? || step.HttpAccept?) && step.saved
    requires step.Accept? ==> step.k < |v.held| && Names(v.held[step.k].(callId := t.requestId))
    ensures NothingLost(DoInsert(w, step, t))
  {
    InsertedIsHeld(w, v, step, t);
    SaveLosesNothing(Noted(w, v.state, t), Inserting(v, step, t));
  }

  lemma RejectLosesNothing(w: World, v: Volatile, step: Step, t: Task)
    requires NothingLost(w) && w.process == Up(v) && step.Reject? && step.k < |v.held| && v.held[step.k].stage == Checked
    requires Names(v.held[step.k].(callId := t.requestId))
    ensures NothingLost(DoInsert(w, step, t))
  {
    InsertedIsHeld(w, v, step, t);
    var w', v1 := DoInsert(w, step, t), Inserting(v, step, t);
    assert w' == Noted(w, v.state, t).(process := Up(v1));
    assert v1.held[0] == Held(v.held[0].env, t.requestId, Inserted);
    assert HoldingOk(w', v1);
  }

  /** Steps that touch neither the queue of envelopes nor what is known or held. */
  lemma ElsewhereLosesNothing(w: World, w': World)
    requires NothingLost(w) && w.process.Up? && w'.process.Up?
    requires w'.inbox == w.inbox && w'.delivered == w.delivered && w'.acked == w.acked && w'.snapshot == w.snapshot
    requires w'.process.v.held == w.process.v.held && w'.process.v.state.requestIndex == w.process.v.state.requestIndex
    ensures NothingLost(w')
  {
  }

  lemma StartLosesNothing(cfg: Config, w: World)
    requires NothingLost(w) && Enabled(cfg, w, Start(true, true))
    ensures NothingLost(Next(cfg, w, Start(true, true)))
  {
    var v := w.process.v;
    if v.state.queue[0] in v.state.tasks {
      var t := v.state.tasks[v.state.queue[0]];
      var v1 := v.(state := StartHead(cfg, v.state), runs := v.runs + [Run(v.state.queue[0], t.requestId, t, Unsaved)]);
      SaveLosesNothing(w.(journal := w.journal + [StartEntry(cfg, v.bootId, t)]), v1);
    } else {
      ElsewhereLosesNothing(w, DoStart(cfg, w, v, true, true));
    }
  }

  lemma TakeLosesNothing(cfg: Config, w: World, step: Step)
    requires NothingLost(w) && Enabled(cfg, w, step) && OnePass(cfg, w, step) && (step.Check? || step.Deduplicate?)
    ensures NothingLost(Next(cfg, w, step))
  {
  }

  lemma InsertionLosesNothing(cfg: Config, w: World, step: Step)
    requires NothingLost(w) && CalmStep(cfg, w, step) && NewTask(cfg, w, step).Some?
    ensures NothingLost(Next(cfg, w, step))
  {
    InsertionEffect(cfg, w, step);
    if step.Reject? {
      RejectLosesNothing(w, w.process.v, step, NewTask(cfg, w, step).value);
    } else {
      SavedInsertLosesNothing(w, w.process.v, step, NewTask(cfg, w, step).value);
    }
  }

  lemma WorkLosesNothing(cfg: Config, w: World, step: Step)
    requires NothingLost(w) && Enabled(cfg, w, step)
    requires step.LoseRun? || step.Invoke? || step.Finish? || step.Send? || step.Record? || step.Retire? || step.BeginReconcile? || step.Reconcile?
    ensures NothingLost(Next(cfg, w, step))
  {
    ElsewhereLosesNothing(w, Next(cfg, w, step));
  }

  lemma StepLosesNothing(cfg: Config, w: World, step: Step)
    requires NothingLost(w) && CalmStep(cfg, w, step) && OnePass(cfg, w, step)
    ensures NothingLost(Next(cfg, w, step))
  {
    if Enabled(cfg, w, step) {
      match step
      case Deliver(env) => DeliverKeeps(cfg, w, env);
      case Crash =>
      case Boot(_, _) =>
      case Save => SaveLosesNothing(w, w.process.v);
      case Check(_) => TakeLosesNothing(cfg, w, step);
      case Deduplicate(_) => TakeLosesNothing(cfg, w, step);
      case Accept(_, _, _, _) => InsertionLosesNothing(cfg, w, step);
      case Reject(_, _, _, _) => InsertionLosesNothing(cfg, w, step);
      case HttpAccept(_, _, _, _) => InsertionLosesNothing(cfg, w, step);
      case AckHeld(k) => AckKeeps(cfg, w, k);
      case Start(_, _) => StartLosesNothing(cfg, w);
      case _ => WorkLosesNothing(cfg, w, step);
    }
  }

  lemma {:induction false} OrderlyRunsLoseNothing(cfg: Config, workers: int, steps: seq<Step>)
    requires Throughout(cfg, InitialWorld(workers), steps, Orderly(cfg))
    ensures NothingLost(Execute(cfg, InitialWorld(workers), steps))
    decreases |steps|
  {
    if steps != [] {
      OrderlyRunsLoseNothing(cfg, workers, steps[..|steps| - 1]);
      StepLosesNothing(cfg, Execute(cfg, InitialWorld(workers), steps[..|steps| - 1]), steps[|steps| - 1]);
    }
  }

  lemma {:induction false} EnvelopesMember(acked: seq<Held>, env: TaskEnvelope)
    requires env in Envelopes(acked)
    ensures exists h :: h in acked && h.env == env
  {
    var init, last := acked[..|acked| - 1], acked[|acked| - 1];
    if last.env == env {
      assert last in acked;
    } else {
      EnvelopesMember(init, env);
      var h :| h in init && h.env == env;
      assert h in acked;
    }
  }

  /**
   At every point of such a run, crashes included, each envelope ever delivered is still in the
   inbox, or it was acked and its request is in the snapshot the next boot will start from.
   */
  lemma {:induction false} NoEnvelopeIsLost(cfg: Config, workers: int, steps: seq<Step>, env: TaskEnvelope)
    requires Throughout(cfg, InitialWorld(workers), steps, Orderly(cfg))
    requires env in Execute(cfg, InitialWorld(workers), steps).delivered
    ensures var w := Execute(cfg, InitialWorld(workers), steps);
            || env in w.inbox
            || exists h :: h in w.acked && h.env == env && Names(h) && h.callId in w.snapshot.requestIndex
  {
    OrderlyRunsLoseNothing(cfg, workers, steps);
    var w := Execute(cfg, InitialWorld(workers), steps);
    assert env in multiset(w.delivered);
    if env !in w.inbox {
      assert env !in multiset(w.inbox);
      EnvelopesMember(w.acked, env);
    }
  }
}
