/** A run of the responder that loses a call for good, with nothing in it but two crashes. */
module StrandingRun {
  import opened AttemptDiscipline
  import opened Collections
  import opened CrashWindows
  import opened DuplicateChecks
  import opened ExecutionJournal
  import opened ResponderState
  import opened ResponderTasks
  import opened ResponderWorld
  import opened Results
  import opened StrandedCalls

  const POSTED := TaskEnvelope("m", None, None, Some("caller"), None, Some("req"), None, None, None, 5)
  const IDS := FreshIds("t", "q", "a")

  function Posted(cfg: Config): Task
    requires cfg.identity.hotlineIds != []
  {
    CreateTask(POSTED, cfg.identity, IDS, 0)
  }

  /** The configuration declares its first hotline restartable. */
  predicate Restartable(cfg: Config) {
    && cfg.identity.hotlineIds != [] && cfg.hasExecutor
    && cfg.mayAutoRerun(cfg.identity.hotlineIds[0], cfg.classOf(cfg.identity.hotlineIds[0], None))
  }

  ghost predicate Waiting(cfg: Config, w: World)
    requires cfg.identity.hotlineIds != []
  {
    && w.process == Up(Volatile("b1", w.snapshot, true, [], [], []))
    && w.snapshot == State(map["t" := Posted(cfg)], map["req" := "t"], ["t"], [], 1)
    && w.journal == [] && w.minted == {"b1", "t", "req", "a"} && w.invoked == []
  }

  lemma FirstBoot(cfg: Config)
    ensures var w := Next(cfg, InitialWorld(1), Boot("b1", 1));
            && CalmStep(cfg, InitialWorld(1), Boot("b1", 1)) && w.process == Up(Volatile("b1", EmptyState(1), true, [], [], []))
            && w.journal == [] && w.minted == {"b1"} && w.invoked == []
  {
  }

  lemma Post(cfg: Config, w: World)
    requires cfg.identity.hotlineIds != []
    requires w.process == Up(Volatile("b1", EmptyState(1), true, [], [], [])) && w.journal == [] && w.minted == {"b1"} && w.invoked == []
    ensures CalmStep(cfg, w, HttpAccept(POSTED, IDS, 0, true)) && Waiting(cfg, Next(cfg, w, HttpAccept(POSTED, IDS, 0, true)))
  {
    var post := HttpAccept(POSTED, IDS, 0, true);
    assert NewTask(cfg, w, post) == Some(Posted(cfg));
    assert AttemptUnused([], EmptyState(1), "a");
    EnqueueFirst(Posted(cfg), 1);
    InsertionEffect(cfg, w, post);
  }

  lemma BootAndPost(cfg: Config) returns (steps: seq<Step>)
    requires cfg.identity.hotlineIds != []
    ensures Calm(cfg, InitialWorld(1), steps) && Waiting(cfg, Execute(cfg, InitialWorld(1), steps))
  {
    var w0, boot, post := InitialWorld(1), Boot("b1", 1), HttpAccept(POSTED, IDS, 0, true);
    FirstBoot(cfg);
    ExecuteSnoc(cfg, w0, [], boot);
    ThroughoutSnoc(cfg, w0, [], boot, CalmRule(cfg));
    Post(cfg, Next(cfg, w0, boot));
    ExecuteSnoc(cfg, w0, [] + [boot], post);
    ThroughoutSnoc(cfg, w0, [] + [boot], post, CalmRule(cfg));
    steps := [] + [boot] + [post];
  }

  predicate KnowsPosted(cfg: Config, s: State)
    requires cfg.identity.hotlineIds != []
  {
    s.requestIndex == map["req" := "t"] && "t" in s.tasks && s.tasks["t"].hotlineId == cfg.identity.hotlineIds[0]
  }

  ghost predicate Crashed(cfg: Config, w: World)
    requires cfg.identity.hotlineIds != []
  {
    && w.process == Down && w.journal == [StartEntry(cfg, "b1", Posted(cfg))]
    && w.minted == {"b1", "t", "req", "a"} && w.snapshot.workers == 1
    && KnowsPosted(cfg, w.snapshot) && w.invoked == []
  }

  lemma StartAndCrash(cfg: Config, w: World)
    requires cfg.identity.hotlineIds != [] && Waiting(cfg, w)
    ensures CalmStep(cfg, w, Start(true, true)) && CalmStep(cfg, Next(cfg, w, Start(true, true)), Crash)
    ensures Crashed(cfg, Next(cfg, Next(cfg, w, Start(true, true)), Crash))
  {
    assert [] + [StartEntry(cfg, "b1", Posted(cfg))] == [StartEntry(cfg, "b1", Posted(cfg))];
  }

  /** The second boot finds the attempt open and its call known. */
  ghost predicate Found(cfg: Config, w: World)
    requires cfg.identity.hotlineIds != []
  {
    && w.process.Up? && w.process.v.bootId == "b2" && w.process.v.pending == [StartEntry(cfg, "b1", Posted(cfg))]
    && KnowsPosted(cfg, w.process.v.state) && w.minted == {"b1", "t", "req", "a", "b2"} && w.invoked == []
  }

  lemma BootAndFind(cfg: Config, w: World)
    requires cfg.identity.hotlineIds != [] && Crashed(cfg, w)
    ensures CalmStep(cfg, w, Boot("b2", 1)) && CalmStep(cfg, Next(cfg, w, Boot("b2", 1)), BeginReconcile)
    ensures Found(cfg, Next(cfg, Next(cfg, w, Boot("b2", 1)), BeginReconcile))
  {
    var w1 := Next(cfg, w, Boot("b2", 1));
    assert w1.process.Up? && w1.process.v.bootId == "b2" && KnowsPosted(cfg, w1.process.v.state) && w1.journal == w.journal;
    Find(cfg, w1);
  }

  lemma Find(cfg: Config, w: World)
    requires cfg.identity.hotlineIds != [] && w.process.Up? && w.process.v.bootId == "b2"
    requires w.journal == [StartEntry(cfg, "b1", Posted(cfg))]
    ensures CalmStep(cfg, w, BeginReconcile)
    ensures Next(cfg, w, BeginReconcile) == w.(process := Up(w.process.v.(pending := w.journal)))
  {
    FilterAll(IsInterrupted(w.journal, Some("b2")), w.journal);
  }

  lemma FoundIsRerun(cfg: Config, w: World)
    requires Restartable(cfg) && Found(cfg, w)
    ensures Enabled(cfg, w, Reconcile(Unreachable, "a2", true))
    ensures Decide(cfg, w.process.v.state, w.process.v.pending[0], Unreachable).Rerun?
  {
    var e := w.process.v.pending[0];
    assert e == StartEntry(cfg, "b1", Posted(cfg));
    assert TaskFor(w.process.v.state, "req").Some?;
    assert e.hotlineId == Some(cfg.identity.hotlineIds[0]);
    if cfg.identity.hotlineIds[0] == "" {
      assert !Given(e.hotlineId);
    }
  }

  /** The calm part of the run: posted, started, crashed, and found again. */
  lemma UpToReconciliation(cfg: Config) returns (steps: seq<Step>)
    requires cfg.identity.hotlineIds != []
    ensures Calm(cfg, InitialWorld(1), steps) && Found(cfg, Execute(cfg, InitialWorld(1), steps))
  {
    var w0 := InitialWorld(1);
    var posted := BootAndPost(cfg);
    var w := Execute(cfg, w0, posted);
    StartAndCrash(cfg, w);
    var crashed := TwoMore(cfg, posted, Start(true, true), Crash);
    BootAndFind(cfg, Execute(cfg, w0, crashed));
    steps := TwoMore(cfg, crashed, Boot("b2", 1), BeginReconcile);
  }

  lemma TwoMore(cfg: Config, steps: seq<Step>, one: Step, two: Step) returns (more: seq<Step>)
    requires Calm(cfg, InitialWorld(1), steps)
    requires var w := Execute(cfg, InitialWorld(1), steps); CalmStep(cfg, w, one) && CalmStep(cfg, Next(cfg, w, one), two)
    ensures Calm(cfg, InitialWorld(1), more)
    ensures Execute(cfg, InitialWorld(1), more) == Next(cfg, Next(cfg, Execute(cfg, InitialWorld(1), steps), one), two)
  {
    var w0 := InitialWorld(1);
    ExecuteSnoc(cfg, w0, steps, one);
    ThroughoutSnoc(cfg, w0, steps, one, CalmRule(cfg));
    ExecuteSnoc(cfg, w0, steps + [one], two);
    ThroughoutSnoc(cfg, w0, steps + [one], two, CalmRule(cfg));
    more := steps + [one] + [two];
  }

  lemma RerunAndCrash(cfg: Config, found: seq<Step>, rerun: Step) returns (steps: seq<Step>)
    requires Calm(cfg, InitialWorld(1), found) && CalmStep(cfg, Execute(cfg, InitialWorld(1), found), rerun) && rerun.Reconcile?
    ensures Calm(cfg, InitialWorld(1), steps)
    ensures Execute(cfg, InitialWorld(1), steps)
         == Restarted(cfg, Next(cfg, Execute(cfg, InitialWorld(1), found), rerun), false, "b3", 1)
  {
    var w0 := InitialWorld(1);
    var crashed := TwoMore(cfg, found, rerun, Crash);
    ExecuteSnoc(cfg, w0, crashed, Boot("b3", 1));
    ThroughoutSnoc(cfg, w0, crashed, Boot("b3", 1), CalmRule(cfg));
    steps := crashed + [Boot("b3", 1)];
  }

  lemma NoneInvoked(cfg: Config, w: World, rerun: Step)
    requires w.invoked == [] && rerun.Reconcile?
    ensures Restarted(cfg, Next(cfg, w, rerun), false, "b3", 1).invoked == []
  {
    var w1 := Next(cfg, w, rerun);
    assert w1.invoked == [];
    var w2 := Next(cfg, w1, Crash);
    assert w2.invoked == [];
  }

  /**
   Posted, started, crashed, found and superseded, crashed again before the save: the call is
   stranded and was never invoked. Nothing in the run is out of order.
   */
  lemma RunThatStrands(cfg: Config) returns (steps: seq<Step>)
    requires Restartable(cfg)
    ensures Calm(cfg, InitialWorld(1), steps)
    ensures var w := Execute(cfg, InitialWorld(1), steps); Stranded(w, "req") && w.invoked == []
  {
    var found := UpToReconciliation(cfg);
    var w := Execute(cfg, InitialWorld(1), found);
    var rerun := Reconcile(Unreachable, "a2", true);
    FoundIsRerun(cfg, w);
    assert w.process.v.pending[0].callId == "req";
    SupersededSurvivesIffSaved(cfg, 1, found, Unreachable, "a2", false, "b3");
    NoneInvoked(cfg, w, rerun);
    steps := RerunAndCrash(cfg, found, rerun);
  }
}
