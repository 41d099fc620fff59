/** Two requests that name one attempt: the run in which the terminal row of the first hides the second for good. */
module SharedAttemptRun {
  import AtMostOnce
  import opened AttemptDiscipline
  import opened Collections
  import opened DuplicateChecks
  import opened ExecutionJournal
  import opened ResponderState
  import opened ResponderTasks
  import opened ResponderWorld
  import opened StrandedCalls
  import ResultBuilder

  const ONE := TaskEnvelope("m1", None, Some("A"), Some("caller"), None, Some("r1"), None, None, None, 5)
  const OTHER := TaskEnvelope("m2", None, Some("A"), Some("caller"), None, Some("r2"), None, None, None, 5)
  const FOR_ONE := FreshIds("t1", "q1", "a1")
  const FOR_OTHER := FreshIds("t2", "q2", "a2")

  /** What the code asks of names: a careful run, with nothing else wrong. */
  ghost predicate Reached(cfg: Config, steps: seq<Step>, w: World) {
    Throughout(cfg, InitialWorld(2), steps, Careful(cfg)) && Execute(cfg, InitialWorld(2), steps) == w
  }

  lemma OneMore(cfg: Config, steps: seq<Step>, w: World, step: Step) returns (more: seq<Step>)
    requires Reached(cfg, steps, w) && NewTask(cfg, w, step).None?
    ensures more == steps + [step] && Reached(cfg, more, Next(cfg, w, step))
  {
    more := steps + [step];
    ExecuteSnoc(cfg, InitialWorld(2), steps, step);
    ThroughoutSnoc(cfg, InitialWorld(2), steps, step, Careful(cfg));
  }

  lemma OnePost(cfg: Config, steps: seq<Step>, w: World, step: Step) returns (more: seq<Step>)
    requires Reached(cfg, steps, w) && step.HttpAccept? && NewTask(cfg, w, step).Some? && w.process.v.held == []
    requires NamesFreshTask(cfg, w, step)
    ensures more == steps + [step] && Reached(cfg, more, Next(cfg, w, step))
  {
    more := steps + [step];
    ExecuteSnoc(cfg, InitialWorld(2), steps, step);
    ThroughoutSnoc(cfg, InitialWorld(2), steps, step, Careful(cfg));
  }

  // ------------------------------------------------------------------------- both posted

  ghost predicate OneQueued(cfg: Config, w: World)
    requires cfg.identity.hotlineIds != []
  {
    && w.process == Up(Volatile("b", w.snapshot, true, [], [], []))
    && w.snapshot == State(map["t1" := CreateTask(ONE, cfg.identity, FOR_ONE, 0)], map["r1" := "t1"], ["t1"], [], 2)
    && w.minted == {"b", "t1", "r1", "A"} && w.journal == [] && w.invoked == []
  }

  lemma Posted(cfg: Config, w: World)
    requires cfg.identity.hotlineIds != [] && w.process == Up(Volatile("b", EmptyState(2), true, [], [], []))
    requires w.minted == {"b"} && w.journal == [] && w.invoked == []
    ensures var post := HttpAccept(ONE, FOR_ONE, 0, true);
            NewTask(cfg, w, post).Some? && NamesFreshTask(cfg, w, post) && OneQueued(cfg, Next(cfg, w, post))
  {
    EnqueueFirst(CreateTask(ONE, cfg.identity, FOR_ONE, 0), 2);
    InsertionEffect(cfg, w, HttpAccept(ONE, FOR_ONE, 0, true));
  }

  /** The table holds both tasks under their requests, each for the one attempt. */
  ghost predicate BothKnown(s: State) {
    && s.tasks.Keys == {"t1", "t2"} && s.requestIndex == map["r1" := "t1", "r2" := "t2"]
    && s.tasks["t1"].requestId == "r1" && s.tasks["t2"].requestId == "r2"
    && s.tasks["t1"].taskId == "t1" && s.tasks["t2"].taskId == "t2"
    && s.tasks["t1"].attemptId == "A" && s.tasks["t2"].attemptId == "A" && s.workers == 2
  }

  ghost predicate BothQueued(w: World) {
    && w.process.Up? && w.process.v.bootId == "b" && w.process.v.runs == [] && w.process.v.held == []
    && BothKnown(w.process.v.state) && w.process.v.state.queue == ["t1", "t2"] && w.process.v.state.active == []
    && w.minted == {"b", "t1", "r1", "A", "t2", "r2"} && w.journal == [] && w.invoked == []
  }

  lemma PostedToo(cfg: Config, w: World)
    requires cfg.identity.hotlineIds != [] && OneQueued(cfg, w)
    ensures var post := HttpAccept(OTHER, FOR_OTHER, 0, true);
            NewTask(cfg, w, post).Some? && NamesFreshTask(cfg, w, post) && BothQueued(Next(cfg, w, post))
  {
    var post := HttpAccept(OTHER, FOR_OTHER, 0, true);
    assert !Duplicate(w.process.v.state, OTHER);
    InsertionEffect(cfg, w, post);
    SecondQueued(cfg, w.process.v.state);
  }

  lemma SecondQueued(cfg: Config, s: State)
    requires cfg.identity.hotlineIds != []
    requires s == State(map["t1" := CreateTask(ONE, cfg.identity, FOR_ONE, 0)], map["r1" := "t1"], ["t1"], [], 2)
    ensures var s' := Enqueue(s, CreateTask(OTHER, cfg.identity, FOR_OTHER, 0)); BothKnown(s') && s'.queue == ["t1", "t2"] && s'.active == []
  {
    EnqueueSecond(s, CreateTask(OTHER, cfg.identity, FOR_OTHER, 0), "t1");
    assert Enqueue(s, CreateTask(OTHER, cfg.identity, FOR_OTHER, 0)).tasks == s.tasks["t2" := CreateTask(OTHER, cfg.identity, FOR_OTHER, 0)];
  }

  lemma BothPosted(cfg: Config) returns (steps: seq<Step>, w: World)
    requires cfg.identity.hotlineIds != []
    ensures Reached(cfg, steps, w) && BothQueued(w)
  {
    var w0 := InitialWorld(2);
    steps := OneMore(cfg, [], w0, Boot("b", 2));
    w := Next(cfg, w0, Boot("b", 2));
    assert w.process == Up(Volatile("b", EmptyState(2), true, [], [], [])) && w.minted == {"b"};
    Posted(cfg, w);
    steps := OnePost(cfg, steps, w, HttpAccept(ONE, FOR_ONE, 0, true));
    w := Next(cfg, w, HttpAccept(ONE, FOR_ONE, 0, true));
    PostedToo(cfg, w);
    steps := OnePost(cfg, steps, w, HttpAccept(OTHER, FOR_OTHER, 0, true));
    w := Next(cfg, w, HttpAccept(OTHER, FOR_OTHER, 0, true));
  }

  // ---------------------------------------------------------- both started, one recorded

  /** Both start rows are there, under one attempt, and the snapshot has both tasks off the queue. */
  ghost predicate BothRunning(w: World) {
    && w.process.Up? && w.process.v.bootId == "b" && |w.process.v.runs| == 2 && w.process.v.held == []
    && w.process.v.runs[0].taskId == "t1" && w.process.v.runs[0].callId == "r1" && w.process.v.runs[0].phase == Ready
    && BothKnown(w.process.v.state)
    && Left(w) && w.invoked == []
    && |w.journal| == 2 && IsStart(w.journal[0], "r1") && IsStart(w.journal[1], "r2")
  }

  predicate IsStart(e: Entry, c: Id) {
    e.entryType.Started? && e.callId == c && e.attemptId == "A" && e.bootId == "b"
  }

  ghost predicate Left(w: World) {
    BothKnown(w.snapshot) && w.snapshot.queue == [] && w.minted == {"b", "t1", "r1", "A", "t2", "r2"}
  }

  ghost predicate FirstRunning(w: World) {
    && w.process.Up? && w.process.v.bootId == "b" && |w.process.v.runs| == 1 && w.process.v.held == []
    && w.process.v.runs[0].taskId == "t1" && w.process.v.runs[0].callId == "r1" && w.process.v.runs[0].phase == Ready
    && BothKnown(w.process.v.state) && w.process.v.state.queue == ["t2"] && |w.process.v.state.active| == 1
    && w.minted == {"b", "t1", "r1", "A", "t2", "r2"} && w.invoked == []
    && |w.journal| == 1 && IsStart(w.journal[0], "r1")
  }

  lemma FirstStarts(cfg: Config, w: World)
    requires BothQueued(w)
    ensures FirstRunning(Next(cfg, w, Start(true, true)))
  {
    assert w.process.v.state.queue[1..] == ["t2"];
  }

  lemma SecondStarts(cfg: Config, w: World)
    requires FirstRunning(w)
    ensures BothRunning(Next(cfg, w, Start(true, true)))
  {
    var w' := Next(cfg, w, Start(true, true));
    assert w.process.v.state.queue[1..] == [];
    assert w'.process.v.runs[0] == w.process.v.runs[0] && w'.journal[0] == w.journal[0];
  }

  lemma BothStart(cfg: Config, steps: seq<Step>, w: World) returns (more: seq<Step>, w': World)
    requires Reached(cfg, steps, w) && BothQueued(w)
    ensures Reached(cfg, more, w') && BothRunning(w')
  {
    FirstStarts(cfg, w);
    more := OneMore(cfg, steps, w, Start(true, true));
    w' := Next(cfg, w, Start(true, true));
    SecondStarts(cfg, w');
    more := OneMore(cfg, more, w', Start(true, true));
    w' := Next(cfg, w', Start(true, true));
  }

  /** The first run on its way to its terminal row; nothing durable changes until then. */
  ghost predicate FirstAt(w: World, phase: Phase, journal: seq<Entry>) {
    && w.process.Up? && w.process.v.bootId == "b" && |w.process.v.runs| == 2 && w.process.v.runs[0].phase == phase
    && w.process.v.runs[0].taskId == "t1" && w.process.v.runs[0].callId == "r1"
    && "t1" in w.process.v.state.tasks && w.process.v.state.tasks["t1"].requestId == "r1" && w.process.v.state.tasks["t1"].attemptId == "A"
    && Left(w) && w.invoked == ["r1"] && w.journal == journal
  }

  lemma FirstInvoked(cfg: Config, w: World)
    requires BothRunning(w)
    ensures FirstAt(Next(cfg, w, Invoke(0)), Invoked, w.journal)
  {
    assert [] + ["r1"] == ["r1"];
  }

  lemma FirstFinished(cfg: Config, w: World, journal: seq<Entry>, execution: ResultBuilder.Execution)
    requires FirstAt(w, Invoked, journal)
    ensures FirstAt(Next(cfg, w, Finish(0, execution)), ResultSet, journal)
  {
    assert Current(w.process.v.state, w.process.v.runs[0]);
  }

  lemma FirstSent(cfg: Config, w: World, journal: seq<Entry>)
    requires FirstAt(w, ResultSet, journal)
    ensures FirstAt(Next(cfg, w, Send(0)), ResultSent, journal)
  {
  }

  lemma FirstRecorded(cfg: Config, w: World, journal: seq<Entry>)
    requires FirstAt(w, ResultSent, journal)
    ensures var w' := Next(cfg, w, Record(0, true));
            exists row :: FirstAt(w', RowWritten, journal + [row]) && IsEnd(row)
  {
    var row := TerminalEntry("b", RecordOf(w.process.v.state, w.process.v.runs[0]));
    assert FirstAt(Next(cfg, w, Record(0, true)), RowWritten, journal + [row]);
  }

  lemma FirstRuns(cfg: Config, steps: seq<Step>, w: World, execution: ResultBuilder.Execution) returns (more: seq<Step>, w': World)
    requires Reached(cfg, steps, w) && BothRunning(w)
    ensures Reached(cfg, more, w') && FirstAt(w', ResultSet, w.journal)
  {
    FirstInvoked(cfg, w);
    more := OneMore(cfg, steps, w, Invoke(0));
    w' := Next(cfg, w, Invoke(0));
    FirstFinished(cfg, w', w.journal, execution);
    more := OneMore(cfg, more, w', Finish(0, execution));
    w' := Next(cfg, w', Finish(0, execution));
  }

  predicate IsEnd(row: Entry) {
    row.entryType.Terminal? && row.callId == "r1" && row.attemptId == "A"
  }

  lemma FirstDelivers(cfg: Config, steps: seq<Step>, w: World, journal: seq<Entry>) returns (more: seq<Step>, w': World, row: Entry)
    requires Reached(cfg, steps, w) && FirstAt(w, ResultSet, journal)
    ensures Reached(cfg, more, w') && FirstAt(w', RowWritten, journal + [row]) && IsEnd(row)
  {
    FirstSent(cfg, w, journal);
    more := OneMore(cfg, steps, w, Send(0));
    w' := Next(cfg, w, Send(0));
    FirstRecorded(cfg, w', journal);
    more := OneMore(cfg, more, w', Record(0, true));
    w' := Next(cfg, w', Record(0, true));
    row :| FirstAt(w', RowWritten, journal + [row]) && IsEnd(row);
  }

  // ------------------------------------------------------------------------ the next boot

  lemma NothingOpen(journal: seq<Entry>, c: Id)
    requires |journal| == 3 && journal[2].entryType.Terminal? && forall e :: e in journal ==> e.attemptId == "A"
    ensures Interrupted(journal, Some("b2")) == [] && OpenAttempts(journal, c) == 0
  {
    assert journal[2] in journal && Closes(journal[2], "A") && ClosedIn(journal, "A");
    FilterNone(IsInterrupted(journal, Some("b2")), journal);
    TallyZero(OpenFor(journal, c), journal);
  }

  lemma CrashAndBoot(cfg: Config, w: World)
    requires w.process.Up? && "b2" !in w.minted
    ensures var w' := Next(cfg, Next(cfg, w, Crash), Boot("b2", 2));
            && w'.process == Up(Volatile("b2", Hydrated(w.snapshot, 2), w.snapshotOrdered, [], [], []))
            && w'.snapshot == w.snapshot && w'.journal == w.journal && w'.minted == w.minted + {"b2"} && w'.invoked == w.invoked
  {
  }

  lemma LeftIsSound(s: State, minted: set<Id>)
    requires BothKnown(s) && s.queue == [] && {"t1", "r1", "t2", "r2"} <= minted
    ensures AtMostOnce.SoundState(s, minted) && QueuedTimes(s, "r2") == 0
  {
  }

  /** A call of which the journal has its start and nothing else, found by no query and stranded. */
  ghost predicate HiddenFromBoot(w: World, c: Id) {
    && w.process.Up? && Interrupted(w.journal, Some(w.process.v.bootId)) == []
    && (exists e :: e in w.journal && e.entryType.Started? && e.callId == c)
    && (forall e :: e in w.journal && e.callId == c ==> e.entryType.Started?)
    && Stranded(w, c)
  }

  lemma SecondIsHidden(w: World, w': World, started: seq<Entry>, row: Entry)
    requires Left(w) && w'.process == Up(Volatile("b2", Hydrated(w.snapshot, 2), w.snapshotOrdered, [], [], []))
    requires w'.snapshot == w.snapshot && w'.minted == w.minted + {"b2"} && w'.journal == started + [row]
    requires |started| == 2 && IsStart(started[0], "r1") && IsStart(started[1], "r2") && IsEnd(row)
    ensures HiddenFromBoot(w', "r2")
  {
    NothingOpen(w'.journal, "r2");
    LeftIsSound(w.snapshot, w'.minted);
    StrandedOnBoot(w', 2, "r2");
    assert w'.journal[1] == started[1] && w'.journal[1] in w'.journal;
  }

  /**
   Everything is journalled, saved and delivered in order, and only the first call is ever closed.
   The next boot finds nothing interrupted, although the second call started and never ended: it is
   stranded, and was never invoked.
   */
  lemma SharedAttemptStrands(cfg: Config, execution: ResultBuilder.Execution) returns (steps: seq<Step>)
    requires cfg.identity.hotlineIds != []
    ensures Throughout(cfg, InitialWorld(2), steps, Careful(cfg))
    ensures var w := Execute(cfg, InitialWorld(2), steps); w.invoked == ["r1"] && HiddenFromBoot(w, "r2")
  {
    var w, row;
    steps, w := BothPosted(cfg);
    steps, w := BothStart(cfg, steps, w);
    var started := w.journal;
    steps, w := FirstRuns(cfg, steps, w, execution);
    steps, w, row := FirstDelivers(cfg, steps, w, started);
    steps := Reboot(cfg, steps, w);
    SecondIsHidden(w, Execute(cfg, InitialWorld(2), steps), started, row);
  }

  lemma Reboot(cfg: Config, steps: seq<Step>, w: World) returns (more: seq<Step>)
    requires Reached(cfg, steps, w) && w.process.Up? && "b2" !in w.minted
    ensures Reached(cfg, more, Next(cfg, Next(cfg, w, Crash), Boot("b2", 2)))
    ensures var w' := Execute(cfg, InitialWorld(2), more);
            && w'.process == Up(Volatile("b2", Hydrated(w.snapshot, 2), w.snapshotOrdered, [], [], []))
            && w'.snapshot == w.snapshot && w'.journal == w.journal && w'.minted == w.minted + {"b2"} && w'.invoked == w.invoked
  {
    CrashAndBoot(cfg, w);
    more := OneMore(cfg, steps, w, Crash);
    more := OneMore(cfg, more, Next(cfg, w, Crash), Boot("b2", 2));
  }
}
