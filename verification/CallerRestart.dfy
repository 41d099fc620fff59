/**
 The caller over crashes: an inbox pass settles requests in memory and acks as it goes, and the state
 is saved once, after the pass. Which acked results a restart still knows.
 */
module CallerRestart {
  import opened ArtifactChannel
  import opened CallerInbox
  import opened CallerRequests
  import opened Collections
  import opened EndToEnd
  import opened LocalHub
  import opened Results
  import CallerLifecycle

  /** `acked` is history: every envelope taken off the queue for a request the caller knows. */
  datatype Caller = Caller(requests: Requests, snapshot: Requests, queue: seq<ResultEnvelope>, acked: seq<ResultEnvelope>)

  /** `Route` is any route or loop acting on one record; `Save` any of them saving the whole table. */
  datatype Step =
    | Create(record: Record)
    | Deliver(env: ResultEnvelope)
    | Take(env: ResultEnvelope, channel: Id -> bool, downloads: nat -> DownloadAnswer)
    | Ack(env: ResultEnvelope)
    | Route(id: Id, step: CallerLifecycle.Step)
    | Save
    | Crash

  datatype Setting = Setting(crypto: Crypto, config: CallerConfig)

  /** A pass acks what it has handled: the request it names is settled in memory, or unknown. */
  predicate MayAck(c: Caller, env: ResultEnvelope) {
    env in c.queue && Handled(c.requests, env) && (Settles(env) in c.requests ==> Terminal(c.requests[Settles(env)].status))
  }

  /** An ack that takes a known request's envelope off the queue. */
  predicate Acks(c: Caller, step: Step) {
    step.Ack? && MayAck(c, step.env) && Settles(step.env) in c.requests
  }

  function Next(p: Setting, c: Caller, step: Step): Caller {
    match step
    case Create(record) => if record.requestId in c.requests then c else c.(requests := c.requests[record.requestId := record])
    case Deliver(env) => c.(queue := c.queue + [env])
    case Take(env, channel, downloads) =>
      if env in c.queue then c.(requests := Absorb(p.crypto, c.requests, env, channel, downloads)) else c
    case Ack(env) =>
      if !MayAck(c, env) then c else
        c.(queue := RemoveFirst(ResultMessageId, c.queue, env.messageId), acked := if Settles(env) in c.requests then c.acked + [env] else c.acked)
    case Route(id, step) =>
      if id in c.requests then c.(requests := c.requests[id := CallerLifecycle.Apply(p.crypto, p.config, c.requests[id], step)]) else c
    case Save => c.(snapshot := c.requests)
    case Crash => c.(requests := c.snapshot)
  }

  function Run(p: Setting, c: Caller, steps: seq<Step>): Caller
    decreases |steps|
  {
    if steps == [] then c else Run(p, Next(p, c, steps[0]), steps[1..])
  }

  predicate SameVerdict(r: Record, r': Record) {
    r'.status == r.status && r'.resultPackage == r.resultPackage
  }

  lemma StepKeepsVerdict(p: Setting, c: Caller, step: Step, id: Id)
    requires id in c.requests && Terminal(c.requests[id].status) && !step.Crash?
    ensures var c' := Next(p, c, step); id in c'.requests && SameVerdict(c.requests[id], c'.requests[id])
  {
    if step.Take? {
      AbsorbSettles(p.crypto, c.requests, step.env, step.channel, step.downloads);
    }
  }

  lemma OnlySavesSave(p: Setting, c: Caller, step: Step)
    requires !step.Save?
    ensures Next(p, c, step).snapshot == c.snapshot
  {
  }

  // ------------------------------------------------------------------- one result, one crash

  predicate SavedIn(steps: seq<Step>) {
    exists i :: 0 <= i < |steps| && steps[i].Save?
  }

  lemma SavedInTail(steps: seq<Step>)
    requires steps != []
    ensures SavedIn(steps) <==> steps[0].Save? || SavedIn(steps[1..])
  {
    if SavedIn(steps) && !steps[0].Save? {
      var i :| 0 <= i < |steps| && steps[i].Save?;
      assert steps[1..][i - 1].Save?;
    }
    if SavedIn(steps[1..]) {
      var i :| 0 <= i < |steps[1..]| && steps[1..][i].Save?;
      assert steps[i + 1].Save?;
    }
  }

  /** From a settled request on: it is settled in the snapshot once, and only once, the table is saved. */
  lemma {:induction false} SettledOnDiskIffSaved(p: Setting, c: Caller, steps: seq<Step>, id: Id)
    requires id in c.requests && Terminal(c.requests[id].status)
    requires id in c.snapshot && (Terminal(c.snapshot[id].status) ==> SameVerdict(c.requests[id], c.snapshot[id]))
    requires forall step :: step in steps ==> !step.Crash?
    ensures var c' := Run(p, c, steps);
            && id in c'.snapshot
            && (Terminal(c'.snapshot[id].status) <==> Terminal(c.snapshot[id].status) || SavedIn(steps))
            && (Terminal(c'.snapshot[id].status) ==> SameVerdict(c.requests[id], c'.snapshot[id]))
    decreases |steps|
  {
    if steps != [] {
      var c1 := Next(p, c, steps[0]);
      assert steps[0] in steps;
      StepKeepsVerdict(p, c, steps[0], id);
      if !steps[0].Save? {
        OnlySavesSave(p, c, steps[0]);
      }
      SavedInTail(steps);
      SettledOnDiskIffSaved(p, c1, steps[1..], id);
    }
  }

  /**
   A result that was taken up, judged and possibly acked: after a crash the request is settled, with
   the very verdict and package, if and only if the table was saved between the judgement and the
   crash. Acked without it, the result is gone with its envelope.
   */
  lemma ResultSurvivesIffSaved(p: Setting, c: Caller, env: ResultEnvelope, channel: Id -> bool, downloads: nat -> DownloadAnswer, later: seq<Step>)
    requires env in c.queue && Handled(c.requests, env) && Settles(env) in c.requests
    requires Settles(env) in c.snapshot && !Terminal(c.snapshot[Settles(env)].status)
    requires forall step :: step in later ==> !step.Crash?
    ensures var id, judged := Settles(env), Next(p, c, Take(env, channel, downloads));
            var restarted := Next(p, Run(p, judged, later), Crash);
            && id in judged.requests && Terminal(judged.requests[id].status) && id in restarted.requests
            && (Terminal(restarted.requests[id].status) <==> SavedIn(later))
            && (SavedIn(later) ==> SameVerdict(judged.requests[id], restarted.requests[id]))
  {
    var judged := Next(p, c, Take(env, channel, downloads));
    AbsorbSettles(p.crypto, c.requests, env, channel, downloads);
    SettledOnDiskIffSaved(p, judged, later, Settles(env));
  }

  // ----------------------------------------------------------------------- over whole runs

  /** What the disk calls settled is settled in memory, by the same verdict. */
  ghost predicate Agrees(c: Caller) {
    forall id :: id in c.snapshot && Terminal(c.snapshot[id].status) ==> id in c.requests && SameVerdict(c.snapshot[id], c.requests[id])
  }

  predicate OnDisk(c: Caller, env: ResultEnvelope) {
    (Unreadable(env) || Subject(env).Some?) && Settles(env) in c.snapshot && Terminal(c.snapshot[Settles(env)].status)
  }

  /** Every acked result is settled on disk. */
  ghost predicate NothingLost(c: Caller) {
    forall env :: env in c.acked ==> OnDisk(c, env)
  }

  lemma StepAgrees(p: Setting, c: Caller, step: Step)
    requires Agrees(c)
    ensures Agrees(Next(p, c, step))
    ensures forall env :: OnDisk(c, env) ==> OnDisk(Next(p, c, step), env)
  {
    var c' := Next(p, c, step);
    if !step.Crash? {
      forall id | id in c.snapshot && Terminal(c.snapshot[id].status) ensures id in c'.requests && SameVerdict(c.snapshot[id], c'.requests[id]) {
        StepKeepsVerdict(p, c, step, id);
      }
    }
  }

  /** Each ack that goes through finds its request settled on disk. */
  ghost predicate SavedFirst(p: Setting, c: Caller, steps: seq<Step>)
    decreases |steps|
  {
    steps != [] ==>
      && (Acks(c, steps[0]) ==> OnDisk(c, steps[0].env))
      && SavedFirst(p, Next(p, c, steps[0]), steps[1..])
  }

  /**
   Over every run with any crashes: every acked result stays on disk at each of its points if and
   only if each ack came after a save that held the verdict.
   */
  lemma {:induction false} NothingIsLostExactlyWhen(p: Setting, c: Caller, steps: seq<Step>)
    requires Agrees(c) && NothingLost(c)
    ensures (forall i :: 0 <= i <= |steps| ==> NothingLost(Run(p, c, steps[..i]))) <==> SavedFirst(p, c, steps)
    decreases |steps|
  {
    if steps == [] {
      assert forall i :: 0 <= i <= |steps| ==> steps[..i] == [];
    } else {
      var c1 := Next(p, c, steps[0]);
      StepAgrees(p, c, steps[0]);
      PrefixesFrom(p, c, steps);
      if NothingLost(c1) {
        NothingIsLostExactlyWhen(p, c1, steps[1..]);
        OneAckSafe(p, c, steps[0]);
      } else {
        assert steps[1..][..0] == [];
        OneAckSafe(p, c, steps[0]);
      }
    }
  }

  /** The points of a run are its start and the points of the rest. */
  lemma PrefixesFrom(p: Setting, c: Caller, steps: seq<Step>)
    requires steps != []
    ensures (forall i :: 0 <= i <= |steps| ==> NothingLost(Run(p, c, steps[..i])))
       <==> NothingLost(c) && forall i :: 0 <= i <= |steps[1..]| ==> NothingLost(Run(p, Next(p, c, steps[0]), steps[1..][..i]))
  {
    var c1, rest := Next(p, c, steps[0]), steps[1..];
    assert steps[..0] == [];
    forall i | 0 <= i <= |rest| ensures Run(p, c1, rest[..i]) == Run(p, c, steps[..i + 1]) {
      assert steps[..i + 1][1..] == rest[..i] && steps[..i + 1][0] == steps[0];
    }
    if forall i :: 0 <= i <= |rest| ==> NothingLost(Run(p, c1, rest[..i])) {
      forall i | 0 < i <= |steps| ensures NothingLost(Run(p, c, steps[..i])) {
        assert Run(p, c1, rest[..i - 1]) == Run(p, c, steps[..i]);
      }
    }
    if forall i :: 0 <= i <= |steps| ==> NothingLost(Run(p, c, steps[..i])) {
      assert NothingLost(Run(p, c, steps[..0]));
      forall i | 0 <= i <= |rest| ensures NothingLost(Run(p, c1, rest[..i])) {
        assert NothingLost(Run(p, c, steps[..i + 1]));
      }
    }
  }

  lemma OneAckSafe(p: Setting, c: Caller, step: Step)
    requires Agrees(c) && NothingLost(c)
    ensures NothingLost(Next(p, c, step)) <==> (Acks(c, step) ==> OnDisk(c, step.env))
  {
    var c' := Next(p, c, step);
    StepAgrees(p, c, step);
    if Acks(c, step) {
      assert c'.acked == c.acked + [step.env] && step.env in c'.acked;
    }
  }

  // ---------------------------------------------------------------------------- it happens

  function Unsigned(requestId: Id): ResultPackage {
    ResultPackage(requestId, None, None, None, None, Ok, None, [], None, None, None, None)
  }

  function Fresh(requestId: Id): Record {
    NewRecord(requestId, None, None, None, None, None, 120, None, 90, 300, 0)
  }

  const REPLY := ResultEnvelope("m", "caller", Some("req"), PackageJson(Unsigned("req")), None, None, Some(Unsigned("req")), None)

  /** A good result is taken up and acked, the caller dies before it saves, and the request times out. */
  lemma AckedThenTimedOut(crypto: Crypto, channel: Id -> bool, downloads: nat -> DownloadAnswer)
    ensures var p := Setting(crypto, CallerConfig(true, true));
            var c := Caller(map["req" := Fresh("req")], map["req" := Fresh("req")], [REPLY], []);
            var judged := Next(p, c, Take(REPLY, channel, downloads));
            var acked := Next(p, judged, Step.Ack(REPLY));
            var ended := Next(p, Next(p, acked, Crash), Route("req", CallerLifecycle.Step(CallerLifecycle.Evaluate, 300000)));
            && judged.requests["req"].status == Succeeded && acked.queue == [] && acked.acked == [REPLY]
            && ended.queue == [] && ended.requests["req"].status == TimedOut
  {
    var p := Setting(crypto, CallerConfig(true, true));
    var c := Caller(map["req" := Fresh("req")], map["req" := Fresh("req")], [REPLY], []);
    assert ExtractResult(REPLY).resultPackage == Some(Unsigned("req")) && !Unreadable(REPLY);
    assert ReceivedAttachments(crypto, REPLY, channel("req"), downloads) == [];
    var judged := Next(p, c, Take(REPLY, channel, downloads));
    assert judged.requests["req"].status == Succeeded;
    assert RemoveFirst(ResultMessageId, [REPLY], "m") == [];
  }
}
