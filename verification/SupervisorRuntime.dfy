/** The supervisor's runtime record as an object, and the stop call run without interruption. */
module SupervisorRuntime {
  import opened Collections
  import opened SupervisorFence

  datatype Ensured = Refused | Current(pid: nat) | Joined(token: nat) | Launching(token: nat)

  const POLL_MS: nat := 50
  const TERM_MS: nat := 3000
  const KILL_MS: nat := 2000

  /** A child's exit is seen some time after each signal, if ever; the embedded relay has no child and closes its server instead. */
  datatype Reaction = Signalled(afterTerm: Option<nat>, afterKill: Option<nat>) | Embedded

  predicate Within(delay: Option<nat>, timeoutMs: nat) {
    delay.Some? && delay.value <= timeoutMs
  }

  predicate Honours(r: Reaction) {
    r.Embedded? || Within(r.afterTerm, TERM_MS) || Within(r.afterKill, KILL_MS)
  }

  /** Three seconds after SIGTERM, or two after SIGKILL, the exit is seen; the embedded relay has nothing to wait for. */
  lemma HonoursExactlyWhen(r: Reaction)
    ensures Honours(r) <==>
              r == Embedded || (r.afterTerm.Some? && r.afterTerm.value <= 3000) || (r.afterKill.Some? && r.afterKill.value <= 2000)
  {
  }

  /** Polls every 50 ms until the exit was seen or the deadline has passed. */
  method WaitForProcessExit(delay: Option<nat>, timeoutMs: nat) returns (exited: bool)
    requires timeoutMs % POLL_MS == 0
    ensures exited <==> Within(delay, timeoutMs)
  {
    var now := 0;
    exited := delay == Some(0);
    while !exited && now < timeoutMs
      invariant now % POLL_MS == 0 && now <= timeoutMs
      invariant exited <==> Within(delay, now)
      decreases timeoutMs - now
    {
      now := now + POLL_MS;
      exited := delay.Some? && delay.value <= now;
    }
  }

  lemma OneFewer<V>(m: map<nat, V>, m': map<nat, V>, key: nat)
    requires key in m && m'.Keys == m.Keys - {key}
    ensures |m'| < |m|
  {
    assert |m'.Keys| < |m.Keys|;
  }

  class Runtime {
    var children: map<nat, Child>
    var processes: map<Id, nat>
    var starting: map<Id, nat>
    var launches: map<nat, Launch>
    var stopping: bool
    var nextPid: nat

    constructor ()
      ensures View() == Idle() && Valid()
    {
      children, processes, starting, launches, stopping, nextPid := map[], map[], map[], map[], false, 0;
    }

    function View(): Supervisor
      reads this
    {
      Supervisor(children, processes, starting, launches, stopping, map[])
    }

    ghost predicate Valid()
      reads this
    {
      Sound(View()) && forall p :: p in children ==> p < nextPid
    }

    /** Up to its first await: refuse, hand out what runs, join what is starting, or register a launch. */
    method BeginEnsure(name: Id, token: nat) returns (outcome: Ensured)
      requires Valid() && token !in launches
      modifies this
      ensures Valid() && View() == Next(old(View()), Ensure(name, token))
      ensures outcome == if old(stopping) then Refused
                         else if HasCurrent(old(View()), name) then Current(processes[name])
                         else if name in old(starting) then Joined(old(starting)[name])
                         else Launching(token)
    {
      StepKeepsSound(View(), Ensure(name, token));
      if stopping {
        return Refused;
      }
      if name in processes && !children[processes[name]].exited {
        return Current(processes[name]);
      }
      if name in starting {
        return Joined(starting[name]);
      }
      launches := launches[token := Launch(name, Running)];
      starting := starting[name := token];
      return Launching(token);
    }

    /** The rest of the launch: the child is spawned and registered, or the launch throws. */
    method CompleteLaunch(token: nat, spawns: bool)
      requires Valid() && InPhase(View(), token, Running)
      modifies this
      ensures Valid() && View() == Next(old(View()), if spawns then Spawn(token, old(nextPid)) else Fail(token))
      ensures launches.Keys == old(launches).Keys && launches[token].phase == Settled && stopping == old(stopping)
    {
      StepKeepsSound(View(), if spawns then Spawn(token, nextPid) else Fail(token));
      var name := launches[token].name;
      launches := launches[token := launches[token].(phase := Settled)];
      if spawns {
        children := children[nextPid := Child(name, true, false)];
        processes := processes[name := nextPid];
        nextPid := nextPid + 1;
      }
    }

    /** The `finally` of the launch: unregister, unless another launch took the name meanwhile. */
    method CleanUpLaunch(token: nat)
      requires Valid() && InPhase(View(), token, Settled)
      modifies this
      ensures Valid() && View() == Next(old(View()), CleanUp(token))
      ensures launches == old(launches) - {token} && stopping == old(stopping)
    {
      StepKeepsSound(View(), CleanUp(token));
      var name := launches[token].name;
      launches := launches - {token};
      if name in starting && starting[name] == token {
        starting := starting - {name};
      }
    }

    /** An embedded server is closed; a child gets SIGTERM, three seconds of grace, then SIGKILL and two more. */
    method StopProcessInfo(pid: nat, reaction: Reaction)
      requires Valid() && pid in children
      modifies this`children
      ensures Valid()
      ensures View() == if old(children)[pid].exited || !Honours(reaction) then old(View()) else Stopped(old(View()), pid)
    {
      if children[pid].exited {
        return;
      }
      if reaction.Embedded? {
        children := children[pid := children[pid].(live := false, exited := true)];
        return;
      }
      var exited := WaitForProcessExit(reaction.afterTerm, TERM_MS);
      if !exited {
        exited := WaitForProcessExit(reaction.afterKill, KILL_MS);
      }
      if exited {
        children := children[pid := children[pid].(live := false, exited := true)];
      }
    }

    method SettleOne(token: nat, spawns: bool)
      requires Valid() && token in launches
      modifies this
      ensures Valid() && launches.Keys == old(launches).Keys - {token} && |launches| < |old(launches)| && stopping == old(stopping)
    {
      ghost var before := launches;
      if launches[token].phase == Running {
        CompleteLaunch(token, spawns);
      }
      assert launches.Keys == before.Keys && launches[token].phase == Settled;
      CleanUpLaunch(token);
      OneFewer(before, launches, token);
    }

    /** What awaiting every pending start amounts to: each launch ends one way or the other and cleans up. */
    method SettleAll(spawns: nat -> bool)
      requires Valid()
      modifies this
      ensures Valid() && launches == map[] && starting == map[] && stopping == old(stopping)
    {
      while launches != map[]
        invariant Valid() && stopping == old(stopping)
        decreases |launches|
      {
        var token :| token in launches.Keys;
        SettleOne(token, spawns(token));
      }
      NoLaunchMeansNoneStarting(View());
    }

    /** Every registered process is stopped; with signals honoured none is live afterwards. */
    method Sweep(reactions: nat -> Reaction)
      requires Valid()
      modifies this`children
      ensures Valid()
      ensures (forall pid :: Honours(reactions(pid))) ==> NoneLive(View())
    {
      var rest := processes.Keys;
      while rest != {}
        invariant Valid() && rest <= processes.Keys
        invariant (forall pid :: Honours(reactions(pid))) ==>
                    forall p :: p in children && children[p].live ==> children[p].name in rest
        decreases |rest|
      {
        var name :| name in rest;
        StopProcessInfo(processes[name], reactions(processes[name]));
        rest := rest - {name};
      }
    }

    /** Pending starts are drained in bounded rounds; the first one empties them. */
    method Drain(spawns: nat -> bool) returns (rounds: nat)
      requires Valid() && stopping
      modifies this
      ensures Valid() && stopping && launches == map[] && starting == map[]
      ensures rounds == if old(starting) == map[] then 0 else 1
    {
      rounds := 0;
      while rounds < MAX_DRAINS && starting != map[]
        invariant Valid() && stopping && rounds <= MAX_DRAINS
        invariant rounds == 0 ==> starting == old(starting)
        invariant rounds > 0 ==> rounds == 1 && old(starting) != map[] && starting == map[]
      {
        SettleAll(spawns);
        rounds := rounds + 1;
      }
      NoLaunchMeansNoneStarting(View());
    }

    /**
     The stop call: raise the fence, drain the pending starts, sweep, and keep the fence up if this
     was the last stop. One round of draining is enough, and no honoured signal leaves a child behind.
     */
    method StopManagedServices(final: bool, spawns: nat -> bool, reactions: nat -> Reaction) returns (rounds: nat)
      requires Valid()
      modifies this
      ensures Valid() && stopping == final && launches == map[] && starting == map[]
      ensures rounds == if old(starting) == map[] then 0 else 1
      ensures (forall pid :: Honours(reactions(pid))) ==> NoneLive(View())
      ensures final ==> forall name :: !MayLaunch(View(), name)
    {
      stopping := true;
      rounds := Drain(spawns);
      Sweep(reactions);
      stopping := final;
    }
  }
}
