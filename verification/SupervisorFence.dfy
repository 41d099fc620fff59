/**
 Launching and stopping managed services, over every interleaving at awaits: any number of
 launches, deaths and overlapping stop calls. A step is one stretch of code between two awaits.
 */
module SupervisorFence {
  import opened Collections

  /** `live` is the operating system's view, `exited` what the exit event told the supervisor. */
  datatype Child = Child(name: Id, live: bool, exited: bool)

  datatype Phase = Running | Settled

  /** A launch stays registered until the code after its await has cleaned up. */
  datatype Launch = Launch(name: Id, phase: Phase)

  datatype StopPhase =
    | Draining(round: nat)
    | Awaiting(round: nat, tokens: set<nat>)
    | Sweeping(swept: set<Id>)
    | Returned

  datatype Stop = Stop(final: bool, phase: StopPhase)

  datatype Supervisor = Supervisor(
    children: map<nat, Child>,
    processes: map<Id, nat>,
    starting: map<Id, nat>,
    launches: map<nat, Launch>,
    stopping: bool,
    stops: map<nat, Stop>)

  datatype Step =
    | Ensure(name: Id, token: nat)
    | Spawn(token: nat, pid: nat)
    | Fail(token: nat)
    | CleanUp(token: nat)
    | Die(pid: nat)
    | Notice(pid: nat)
    | BeginStop(id: nat, final: bool)
    | Await(id: nat)
    | Resume(id: nat)
    | BeginSweep(id: nat)
    | SweepOne(id: nat, name: Id)
    | FinishStop(id: nat)

  const MAX_DRAINS: nat := 16

  function Idle(): Supervisor {
    Supervisor(map[], map[], map[], map[], false, map[])
  }

  // ----------------------------------------------------------------------------- steps

  /** The current process of a service is one that has not been seen to exit. */
  predicate HasCurrent(s: Supervisor, name: Id) {
    name in s.processes && s.processes[name] in s.children && !s.children[s.processes[name]].exited
  }

  /** A new launch begins only below the fence, without a current process, and single-flight. */
  predicate MayLaunch(s: Supervisor, name: Id) {
    !s.stopping && !HasCurrent(s, name) && name !in s.starting
  }

  predicate InPhase(s: Supervisor, token: nat, phase: Phase) {
    token in s.launches && s.launches[token].phase == phase
  }

  predicate Enabled(s: Supervisor, step: Step) {
    match step
    case Ensure(name, token) => MayLaunch(s, name) && token !in s.launches
    case Spawn(token, pid) => InPhase(s, token, Running) && pid !in s.children
    case Fail(token) => InPhase(s, token, Running)
    case CleanUp(token) => InPhase(s, token, Settled)
    case Die(pid) => pid in s.children && s.children[pid].live
    case Notice(pid) => pid in s.children && !s.children[pid].live
    case BeginStop(id, _) => id !in s.stops
    case Await(id) => id in s.stops && s.stops[id].phase.Draining? && s.stops[id].phase.round < MAX_DRAINS && s.starting != map[]
    case Resume(id) => id in s.stops && s.stops[id].phase.Awaiting? && s.stops[id].phase.tokens !! s.launches.Keys
    case BeginSweep(id) =>
      id in s.stops && s.stops[id].phase.Draining? && (s.stops[id].phase.round >= MAX_DRAINS || s.starting == map[])
    case SweepOne(id, name) => id in s.stops && s.stops[id].phase.Sweeping? && name in s.processes && s.processes[name] in s.children
    case FinishStop(id) => id in s.stops && s.stops[id].phase.Sweeping? && s.processes.Keys <= s.stops[id].phase.swept
  }

  function AtPhase(s: Supervisor, id: nat, phase: StopPhase): Supervisor
    requires id in s.stops
  {
    s.(stops := s.stops[id := s.stops[id].(phase := phase)])
  }

  function SettleLaunch(s: Supervisor, token: nat): Supervisor
    requires token in s.launches
  {
    s.(launches := s.launches[token := s.launches[token].(phase := Settled)])
  }

  /** SIGTERM, then SIGKILL: a stopped process is gone and seen to be gone. */
  function Stopped(s: Supervisor, pid: nat): Supervisor
    requires pid in s.children
  {
    s.(children := s.children[pid := s.children[pid].(live := false, exited := true)])
  }

  function Next(s: Supervisor, step: Step): Supervisor {
    if !Enabled(s, step) then s else
      match step
      case Ensure(name, token) => s.(launches := s.launches[token := Launch(name, Running)], starting := s.starting[name := token])
      case Spawn(token, pid) =>
        var name := s.launches[token].name;
        SettleLaunch(s, token).(children := s.children[pid := Child(name, true, false)], processes := s.processes[name := pid])
      case Fail(token) => SettleLaunch(s, token)
      case CleanUp(token) =>
        var name := s.launches[token].name;
        s.(launches := s.launches - {token},
           starting := if name in s.starting && s.starting[name] == token then s.starting - {name} else s.starting)
      case Die(pid) => s.(children := s.children[pid := s.children[pid].(live := false)])
      case Notice(pid) => s.(children := s.children[pid := s.children[pid].(exited := true)])
      case BeginStop(id, final) => s.(stopping := true, stops := s.stops[id := Stop(final, Draining(0))])
      case Await(id) => AtPhase(s, id, Awaiting(s.stops[id].phase.round, s.starting.Values))
      case Resume(id) => AtPhase(s, id, Draining(s.stops[id].phase.round + 1))
      case BeginSweep(id) => AtPhase(s, id, Sweeping({}))
      case SweepOne(id, name) => AtPhase(Stopped(s, s.processes[name]), id, Sweeping(s.stops[id].phase.swept + {name}))
      case FinishStop(id) => AtPhase(s, id, Returned).(stopping := s.stops[id].final)
  }

  function Execute(s: Supervisor, steps: seq<Step>): Supervisor
    decreases |steps|
  {
    if steps == [] then s else Next(Execute(s, steps[..|steps| - 1]), steps[|steps| - 1])
  }

  // ------------------------------------------------------------------ launches, always

  ghost predicate ChildrenOk(s: Supervisor) {
    && (forall n :: n in s.processes ==> s.processes[n] in s.children && s.children[s.processes[n]].name == n)
    && (forall p :: p in s.children && s.children[p].live ==>
          !s.children[p].exited && s.children[p].name in s.processes && s.processes[s.children[p].name] == p)
  }

  ghost predicate LaunchesOk(s: Supervisor) {
    && (forall t :: t in s.launches ==> s.launches[t].name in s.starting && s.starting[s.launches[t].name] == t)
    && (forall n :: n in s.starting ==> s.starting[n] in s.launches && s.launches[s.starting[n]].name == n)
    && (forall t :: t in s.launches && s.launches[t].phase.Running? ==> !HasCurrent(s, s.launches[t].name))
  }

  ghost predicate Sound(s: Supervisor) {
    ChildrenOk(s) && LaunchesOk(s)
  }

  lemma SpawnKeepsSound(s: Supervisor, token: nat, pid: nat)
    requires Sound(s) && Enabled(s, Spawn(token, pid))
    ensures Sound(Next(s, Spawn(token, pid)))
  {
    var name := s.launches[token].name;
    var s' := Next(s, Spawn(token, pid));
    forall t | t in s'.launches && s'.launches[t].phase.Running? ensures !HasCurrent(s', s'.launches[t].name) {
      assert s.launches[t].name != name;
    }
  }

  lemma EnsureKeepsSound(s: Supervisor, name: Id, token: nat)
    requires Sound(s) && Enabled(s, Ensure(name, token))
    ensures Sound(Next(s, Ensure(name, token)))
  {
  }

  lemma CleanUpKeepsSound(s: Supervisor, token: nat)
    requires Sound(s) && Enabled(s, CleanUp(token))
    ensures Sound(Next(s, CleanUp(token)))
  {
  }

  /** Steps on one child's state: it dies, is seen to be dead, or is stopped. */
  lemma ChildKeepsSound(s: Supervisor, pid: nat, child: Child)
    requires Sound(s) && pid in s.children && child.name == s.children[pid].name && !child.live
    requires s.children[pid].exited ==> child.exited
    ensures Sound(s.(children := s.children[pid := child]))
  {
  }

  lemma FailKeepsSound(s: Supervisor, token: nat)
    requires Sound(s) && Enabled(s, Fail(token))
    ensures Sound(Next(s, Fail(token)))
  {
  }

  lemma StopsDoNotMatter(s: Supervisor, stopping: bool, stops: map<nat, Stop>)
    requires Sound(s)
    ensures Sound(s.(stopping := stopping, stops := stops))
  {
  }

  lemma {:induction false} StepKeepsSound(s: Supervisor, step: Step)
    requires Sound(s)
    ensures Sound(Next(s, step))
  {
    if Enabled(s, step) {
      match step
      case Ensure(name, token) => EnsureKeepsSound(s, name, token);
      case Spawn(token, pid) => SpawnKeepsSound(s, token, pid);
      case CleanUp(token) => CleanUpKeepsSound(s, token);
      case Die(pid) => ChildKeepsSound(s, pid, s.children[pid].(live := false));
      case Notice(pid) => ChildKeepsSound(s, pid, s.children[pid].(exited := true));
      case SweepOne(_, name) =>
        var pid := s.processes[name];
        ChildKeepsSound(s, pid, s.children[pid].(live := false, exited := true));
        StopsDoNotMatter(Stopped(s, pid), s.stopping, Next(s, step).stops);
      case Fail(token) => FailKeepsSound(s, token);
      case _ => StopsDoNotMatter(s, Next(s, step).stopping, Next(s, step).stops);
    }
  }

  lemma {:induction false} RunsAreSound(steps: seq<Step>)
    ensures Sound(Execute(Idle(), steps))
    decreases |steps|
  {
    if steps != [] {
      RunsAreSound(steps[..|steps| - 1]);
      StepKeepsSound(Execute(Idle(), steps[..|steps| - 1]), steps[|steps| - 1]);
    }
  }

  /** In every reachable state a live child is the registered process of its service, and there is one per service at most. */
  lemma {:induction false} OneLiveChildPerService(steps: seq<Step>, p: nat, q: nat)
    requires var s := Execute(Idle(), steps);
             p in s.children && q in s.children && s.children[p].live && s.children[q].live && s.children[p].name == s.children[q].name
    ensures var s := Execute(Idle(), steps); p == q && s.children[p].name in s.processes && s.processes[s.children[p].name] == p
  {
    RunsAreSound(steps);
  }

  // --------------------------------------------------------------------------- the fence

  ghost predicate FinalBegun(s: Supervisor) {
    exists id :: id in s.stops && s.stops[id].final
  }

  /** No stop call that lifts the fence again returns once a final one has begun. */
  ghost predicate OrderlyStep(s: Supervisor, step: Step) {
    step.FinishStop? && step.id in s.stops && !s.stops[step.id].final ==> !FinalBegun(s)
  }

  ghost predicate Orderly(steps: seq<Step>)
    decreases |steps|
  {
    steps != [] ==>
      var init := steps[..|steps| - 1];
      Orderly(init) && OrderlyStep(Execute(Idle(), init), steps[|steps| - 1])
  }

  ghost predicate NoneLive(s: Supervisor) {
    forall p :: p in s.children ==> !s.children[p].live
  }

  /** How far a final stop has got, and what that rules out. */
  ghost predicate StopOk(s: Supervisor, phase: StopPhase) {
    match phase
    case Draining(round) => round <= 1 && (round == 1 ==> s.launches == map[])
    case Awaiting(round, tokens) => round == 0 && s.launches.Keys <= tokens
    case Sweeping(swept) => s.launches == map[] && forall p :: p in s.children && s.children[p].live ==> s.children[p].name !in swept
    case Returned => s.launches == map[] && NoneLive(s)
  }

  ghost predicate Fenced(s: Supervisor) {
    && (FinalBegun(s) ==> s.stopping)
    && forall id :: id in s.stops && s.stops[id].final ==> StopOk(s, s.stops[id].phase)
  }

  lemma NoLaunchMeansNoneStarting(s: Supervisor)
    requires Sound(s)
    ensures s.launches == map[] <==> s.starting == map[]
  {
  }

  /** Steps of other activities than stop calls. */
  lemma ActivityKeepsFenced(s: Supervisor, step: Step)
    requires Sound(s) && Fenced(s) && Enabled(s, step)
    requires step.Ensure? || step.Spawn? || step.Fail? || step.CleanUp? || step.Die? || step.Notice?
    ensures Fenced(Next(s, step))
  {
  }

  /** A stop call moving from phase to phase. */
  lemma PhaseKeepsFenced(s: Supervisor, id: nat, phase: StopPhase)
    requires Sound(s) && Fenced(s) && id in s.stops && (s.stops[id].final ==> StopOk(s, phase))
    ensures Fenced(AtPhase(s, id, phase))
  {
  }

  lemma SweepKeepsFenced(s: Supervisor, id: nat, name: Id)
    requires Sound(s) && Fenced(s) && Enabled(s, SweepOne(id, name))
    ensures Fenced(Next(s, SweepOne(id, name)))
  {
  }

  lemma FinishKeepsFenced(s: Supervisor, id: nat)
    requires Sound(s) && Fenced(s) && Enabled(s, FinishStop(id)) && OrderlyStep(s, FinishStop(id))
    ensures Fenced(Next(s, FinishStop(id)))
  {
  }

  lemma BeginKeepsFenced(s: Supervisor, id: nat, final: bool)
    requires Sound(s) && Fenced(s) && Enabled(s, BeginStop(id, final))
    ensures Fenced(Next(s, BeginStop(id, final)))
  {
  }

  lemma AwaitedAll(s: Supervisor)
    requires Sound(s)
    ensures s.launches.Keys <= s.starting.Values
  {
  }

  lemma StepKeepsFenced(s: Supervisor, step: Step)
    requires Sound(s) && Fenced(s) && OrderlyStep(s, step)
    ensures Fenced(Next(s, step))
  {
    if Enabled(s, step) {
      match step
      case BeginStop(id, final) => BeginKeepsFenced(s, id, final);
      case Await(id) =>
        AwaitedAll(s);
        NoLaunchMeansNoneStarting(s);
        PhaseKeepsFenced(s, id, Awaiting(s.stops[id].phase.round, s.starting.Values));
      case Resume(id) =>
        assert s.launches.Keys <= s.stops[id].phase.tokens ==> s.launches.Keys == {};
        PhaseKeepsFenced(s, id, Draining(s.stops[id].phase.round + 1));
      case BeginSweep(id) =>
        NoLaunchMeansNoneStarting(s);
        PhaseKeepsFenced(s, id, Sweeping({}));
      case SweepOne(id, name) => SweepKeepsFenced(s, id, name);
      case FinishStop(id) => FinishKeepsFenced(s, id);
      case _ => ActivityKeepsFenced(s, step);
    }
  }

  lemma {:induction false} OrderlyRunsAreFenced(steps: seq<Step>)
    requires Orderly(steps)
    ensures Fenced(Execute(Idle(), steps))
    decreases |steps|
  {
    if steps != [] {
      var init := steps[..|steps| - 1];
      OrderlyRunsAreFenced(init);
      RunsAreSound(init);
      StepKeepsFenced(Execute(Idle(), init), steps[|steps| - 1]);
    }
  }

  /** Whenever a final stop has returned, however it was interleaved: nothing lives, nothing is being launched, nothing can be. */
  lemma {:induction false} FinalStopIsFinal(steps: seq<Step>, id: nat, name: Id)
    requires Orderly(steps)
    requires var s := Execute(Idle(), steps); id in s.stops && s.stops[id].final && s.stops[id].phase.Returned?
    ensures var s := Execute(Idle(), steps); NoneLive(s) && s.launches == map[] && !MayLaunch(s, name)
  {
    OrderlyRunsAreFenced(steps);
    assert FinalBegun(Execute(Idle(), steps));
  }

  /** One drain round empties the pending starts, so the bound on rounds is never what ends the drain. */
  lemma {:induction false} OneRoundDrains(steps: seq<Step>, id: nat)
    requires Orderly(steps)
    requires var s := Execute(Idle(), steps); id in s.stops && s.stops[id].final && s.stops[id].phase.Draining?
    ensures var s := Execute(Idle(), steps); s.stops[id].phase.round <= 1 && (s.stops[id].phase.round == 1 ==> s.starting == map[])
  {
    OrderlyRunsAreFenced(steps);
    RunsAreSound(steps);
    NoLaunchMeansNoneStarting(Execute(Idle(), steps));
  }

  // ------------------------------------------------------------ when the fence falls

  /** A stop that is not final returns and takes the fence down. */
  predicate Lifts(s: Supervisor, step: Step) {
    step.FinishStop? && Enabled(s, step) && !s.stops[step.id].final
  }

  function Continue(s: Supervisor, steps: seq<Step>): Supervisor
    decreases |steps|
  {
    if steps == [] then s else Continue(Next(s, steps[0]), steps[1..])
  }

  ghost predicate StaysUp(s: Supervisor, steps: seq<Step>)
    decreases |steps|
  {
    s.stopping && (steps != [] ==> StaysUp(Next(s, steps[0]), steps[1..]))
  }

  ghost predicate NeverLifted(s: Supervisor, steps: seq<Step>)
    decreases |steps|
  {
    steps != [] ==> !Lifts(s, steps[0]) && NeverLifted(Next(s, steps[0]), steps[1..])
  }

  /** From any state with the fence up, it stays up through a continuation exactly when no stop that is not final returns in it. */
  lemma {:induction false} FenceStaysUpExactlyWhen(s: Supervisor, steps: seq<Step>)
    requires s.stopping
    ensures StaysUp(s, steps) <==> NeverLifted(s, steps)
    decreases |steps|
  {
    if steps != [] && !Lifts(s, steps[0]) {
      FenceStaysUpExactlyWhen(Next(s, steps[0]), steps[1..]);
    } else if steps != [] {
      assert !Next(s, steps[0]).stopping;
    }
  }

  lemma OneStepMore(s: Supervisor, steps: seq<Step>, step: Step)
    ensures Execute(s, steps + [step]) == Next(Execute(s, steps), step)
  {
    assert (steps + [step])[..|steps|] == steps;
  }

  /** Two stops, the first of them final, have begun and found nothing to drain. */
  lemma TwoStopsSweeping() returns (steps: seq<Step>)
    ensures Execute(Idle(), steps)
         == Supervisor(map[], map[], map[], map[], true, map[0 := Stop(true, Sweeping({})), 1 := Stop(false, Sweeping({}))])
  {
    OneStepMore(Idle(), [], BeginStop(0, true));
    steps := [] + [BeginStop(0, true)];
    OneStepMore(Idle(), steps, BeginStop(1, false));
    steps := steps + [BeginStop(1, false)];
    OneStepMore(Idle(), steps, BeginSweep(0));
    steps := steps + [BeginSweep(0)];
    OneStepMore(Idle(), steps, BeginSweep(1));
    steps := steps + [BeginSweep(1)];
  }

  /**
   Why final stops must not overlap with others: the final stop returns with the fence up, then the
   other one returns and takes it down, and a service is launched and lives after the final stop.
   */
  lemma LaunchedAfterFinalStop() returns (steps: seq<Step>, n: nat)
    ensures n <= |steps|
    ensures var s := Execute(Idle(), steps[..n]);
            0 in s.stops && s.stops[0].final && s.stops[0].phase.Returned? && !MayLaunch(s, "relay")
    ensures var s := Execute(Idle(), steps);
            0 in s.stops && s.stops[0].phase.Returned? && 0 in s.children && s.children[0].live && s.children[0].name == "relay"
  {
    var before := TwoStopsSweeping();
    OneStepMore(Idle(), before, FinishStop(0));
    var finished := before + [FinishStop(0)];
    n := |finished|;
    OneStepMore(Idle(), finished, FinishStop(1));
    var lifted := finished + [FinishStop(1)];
    OneStepMore(Idle(), lifted, Ensure("relay", 0));
    var launched := lifted + [Ensure("relay", 0)];
    OneStepMore(Idle(), launched, Spawn(0, 0));
    steps := launched + [Spawn(0, 0)];
    assert steps[..n] == finished;
  }
}
