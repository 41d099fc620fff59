/** Runs of one caller record: every route and background loop as one atomic step; `ResultRoute` takes the one that waits inside apart. */
module CallerLifecycle {
  import opened CallerRequests
  import opened Collections
  import opened Results

  datatype Action =
    | Evaluate
    | Dispatch
    | Acknowledge
    | SyncEvents(events: seq<PlatformEvent>)
    | DeliverResult(body: ResultPackage, attachments: seq<Attachment>)
    | DeliverUnreadable
    | Decide(continueWait: bool)
    | Prepare(grant: Grant)
    | DraftContract

  datatype Step = Step(action: Action, now: int)

  function Apply(crypto: Crypto, config: CallerConfig, r: Record, step: Step): Record {
    match step.action
    case Evaluate => EvaluateTimeouts(r, config, step.now)
    case Dispatch => MarkSent(r, step.now)
    case Acknowledge => MarkAcked(r, step.now)
    case SyncEvents(events) => ApplyPlatformEvents(r, events)
    case DeliverResult(body, attachments) => PostResult(crypto, r, body, attachments)
    case DeliverUnreadable => MarkUnreadable(r)
    case Decide(continueWait) => DecideTimeout(r, continueWait, step.now)
    case Prepare(grant) => PrepareRequest(r, grant).GetOr(r)
    case DraftContract => r
  }

  function Run(crypto: Crypto, config: CallerConfig, r: Record, steps: seq<Step>): Record
    decreases |steps|
  {
    if steps == [] then r else Run(crypto, config, Apply(crypto, config, r, steps[0]), steps[1..])
  }

  lemma {:induction false} RunSplit(crypto: Crypto, config: CallerConfig, r: Record, steps: seq<Step>, i: nat)
    requires i <= |steps|
    ensures Run(crypto, config, r, steps) == Run(crypto, config, Run(crypto, config, r, steps[..i]), steps[i..])
    decreases |steps|
  {
    if i > 0 {
      assert steps[..i][1..] == steps[1..][..i - 1];
      assert steps[1..][i - 1..] == steps[i..];
      RunSplit(crypto, config, Apply(crypto, config, r, steps[0]), steps[1..], i - 1);
    } else {
      assert steps[..0] == [] && steps[0..] == steps;
    }
  }

  // ---------------------------------------------------------------- terminal is absorbing

  /** A terminal status never changes again, and neither does the package it was decided on. */
  lemma {:induction false} TerminalIsAbsorbing(crypto: Crypto, config: CallerConfig, r: Record, steps: seq<Step>)
    requires Terminal(r.status)
    ensures Run(crypto, config, r, steps).status == r.status
    ensures Run(crypto, config, r, steps).resultPackage == r.resultPackage
    decreases |steps|
  {
    if steps != [] {
      TerminalIsAbsorbing(crypto, config, Apply(crypto, config, r, steps[0]), steps[1..]);
    }
  }

  // ---------------------------------------------------------------------- invariants

  /** Stopping means stopped, and the user is only asked while the decision is open. */
  predicate Coherent(r: Record) {
    && (r.timeoutDecision == StopWait ==> Terminal(r.status))
    && (r.needsConfirmation ==> r.timeoutDecision == Pending)
  }

  lemma StepKeepsCoherent(crypto: Crypto, config: CallerConfig, r: Record, step: Step)
    requires Coherent(r)
    ensures Coherent(Apply(crypto, config, r, step))
  {
  }

  lemma {:induction false} StaysCoherent(crypto: Crypto, config: CallerConfig, r: Record, steps: seq<Step>)
    requires Coherent(r)
    ensures Coherent(Run(crypto, config, r, steps))
    decreases |steps|
  {
    if steps != [] {
      StepKeepsCoherent(crypto, config, r, steps[0]);
      StaysCoherent(crypto, config, Apply(crypto, config, r, steps[0]), steps[1..]);
    }
  }

  lemma StepKeepsDeadlines(crypto: Crypto, config: CallerConfig, r: Record, step: Step)
    ensures var r' := Apply(crypto, config, r, step);
            r'.hardTimeoutAt == r.hardTimeoutAt && r'.softTimeoutAt == r.softTimeoutAt && r'.requestId == r.requestId
  {
  }

  lemma {:induction false} DeadlinesNeverMove(crypto: Crypto, config: CallerConfig, r: Record, steps: seq<Step>)
    ensures Run(crypto, config, r, steps).hardTimeoutAt == r.hardTimeoutAt
    ensures Run(crypto, config, r, steps).softTimeoutAt == r.softTimeoutAt
    ensures Run(crypto, config, r, steps).requestId == r.requestId
    decreases |steps|
  {
    if steps != [] {
      StepKeepsDeadlines(crypto, config, r, steps[0]);
      DeadlinesNeverMove(crypto, config, Apply(crypto, config, r, steps[0]), steps[1..]);
    }
  }

  // ------------------------------------------------------------------------ timeouts

  /**
   An evaluation at or after the hard deadline leaves the request open in one case only: it
   was still open and the user had decided to keep waiting. So whatever happens before and
   after it, any other such evaluation makes the whole run end terminal.
   */
  lemma HardDeadlineFinalizes(crypto: Crypto, config: CallerConfig, r: Record, steps: seq<Step>, i: nat)
    requires config.autoFinalize && i < |steps|
    requires steps[i].action == Evaluate && steps[i].now >= r.hardTimeoutAt
    ensures var before := Run(crypto, config, r, steps[..i]);
            && (Terminal(Run(crypto, config, r, steps[..i + 1]).status) <==> Terminal(before.status) || before.timeoutDecision != ContinueWait)
            && (Terminal(before.status) || before.timeoutDecision != ContinueWait ==> Terminal(Run(crypto, config, r, steps).status))
  {
    var before := Run(crypto, config, r, steps[..i]);
    DeadlinesNeverMove(crypto, config, r, steps[..i]);
    RunSplit(crypto, config, r, steps, i);
    assert steps[..i + 1][..i] == steps[..i] && steps[..i + 1][i..] == [steps[i]];
    RunSplit(crypto, config, r, steps[..i + 1], i);
    assert Run(crypto, config, before, [steps[i]]) == Apply(crypto, config, before, steps[i]);
    if Terminal(Apply(crypto, config, before, steps[i]).status) {
      assert steps[i..][0] == steps[i] && steps[i..][1..] == steps[i + 1..];
      TerminalIsAbsorbing(crypto, config, Apply(crypto, config, before, steps[i]), steps[i + 1..]);
    }
  }

  predicate HardTimedOut(r: Record) {
    r.status == TimedOut && r.lastError == Some("EXEC_TIMEOUT_HARD")
  }

  /** Every look at the clock comes before this time. */
  predicate EvaluatesBefore(steps: seq<Step>, deadline: int) {
    forall i :: 0 <= i < |steps| && steps[i].action.Evaluate? ==> steps[i].now < deadline
  }

  lemma NoHardTimeoutEarly(crypto: Crypto, config: CallerConfig, r: Record, step: Step)
    requires !HardTimedOut(r) && (config.autoFinalize && step.action.Evaluate? ==> step.now < r.hardTimeoutAt)
    ensures !HardTimedOut(Apply(crypto, config, r, step))
  {
    match step.action
    case Evaluate => EvaluationExactlyWhen(r, config, step.now);
    case Dispatch =>
    case Acknowledge =>
    case SyncEvents(_) =>
    case DeliverResult(body, attachments) => VerdictExactlyWhen(crypto, r, body, attachments);
    case DeliverUnreadable =>
    case Decide(_) =>
    case Prepare(_) =>
    case DraftContract =>
  }

  /** Before the hard deadline, or with requests not ended automatically, no run ends in the hard timeout. */
  lemma {:induction false} HardTimeoutNeedsDeadline(crypto: Crypto, config: CallerConfig, r: Record, steps: seq<Step>)
    requires !HardTimedOut(r) && (config.autoFinalize ==> EvaluatesBefore(steps, r.hardTimeoutAt))
    ensures !HardTimedOut(Run(crypto, config, r, steps))
    decreases |steps|
  {
    if steps != [] {
      NoHardTimeoutEarly(crypto, config, r, steps[0]);
      StepKeepsDeadlines(crypto, config, r, steps[0]);
      assert config.autoFinalize ==> EvaluatesBefore(steps[1..], r.hardTimeoutAt) by {
        assert forall i :: 0 <= i < |steps[1..]| ==> steps[1..][i] == steps[i + 1];
      }
      HardTimeoutNeedsDeadline(crypto, config, Apply(crypto, config, r, steps[0]), steps[1..]);
    }
  }

  /**
   In terms of what a request was created with: it is ended by the clock at `hardS` seconds and not
   before, whatever else happens to it, and left to itself the user is asked from `softS` seconds on.
   */
  lemma {:induction false} RequestsHaveTheirTime(crypto: Crypto, config: CallerConfig, requestId: Id, responderId: Option<Id>, hotlineId: Option<Id>,
                              expectedSigner: Option<Key>, softS: int, hardS: int, created: int, steps: seq<Step>, now: int)
    requires EvaluatesBefore(steps, created + hardS * 1000)
    ensures var r := NewRecord(requestId, responderId, hotlineId, None, None, expectedSigner, 120, None, softS, hardS, created);
            && !HardTimedOut(Run(crypto, config, r, steps))
            && (EvaluateTimeouts(r, config, now).status == TimedOut <==> config.autoFinalize && now - created >= hardS * 1000)
            && (EvaluateTimeouts(r, config, now).status != TimedOut ==>
                  (EvaluateTimeouts(r, config, now).needsConfirmation <==> config.askByDefault && now - created >= softS * 1000))
  {
    var r := NewRecord(requestId, responderId, hotlineId, None, None, expectedSigner, 120, None, softS, hardS, created);
    HardTimeoutNeedsDeadline(crypto, config, r, steps);
    EvaluationExactlyWhen(r, config, now);
  }

  /** While the user keeps waiting, no clock ends the request: without a stop decision it never times out. */
  lemma {:induction false} WaitingNeverTimesOut(crypto: Crypto, config: CallerConfig, r: Record, steps: seq<Step>)
    requires r.timeoutDecision == ContinueWait && r.status != TimedOut
    requires forall i :: 0 <= i < |steps| ==> steps[i].action != Decide(false)
    ensures Run(crypto, config, r, steps).status != TimedOut
    decreases |steps|
  {
    if steps != [] {
      assert steps[0].action != Decide(false);
      WaitingNeverTimesOut(crypto, config, Apply(crypto, config, r, steps[0]), steps[1..]);
    }
  }

  // ------------------------------------------------------------- the delivery timeout

  predicate DeliveryTimedOut(r: Record) {
    r.status == TimedOut && r.lastError == Some("DELIVERY_OR_ACCEPTANCE_TIMEOUT")
  }

  /** The one step that forgets an acknowledgement: an ack event without a time, on a record that left ACKED. */
  predicate ForgetsAck(r: Record, action: Action) {
    action.SyncEvents? && FirstAck(action.events).Some? && FirstAck(action.events).value.at.None?
    && !Terminal(r.status) && r.status != Acked
  }

  lemma AckLostExactlyWhen(crypto: Crypto, config: CallerConfig, r: Record, step: Step)
    requires r.acknowledgedAt.Some?
    ensures Apply(crypto, config, r, step).acknowledgedAt.None? <==> ForgetsAck(r, step.action)
  {
  }

  predicate TimedAcks(action: Action) {
    action.SyncEvents? ==> FirstAck(action.events).Some? ==> FirstAck(action.events).value.at.Some?
  }

  lemma StepKeepsAck(crypto: Crypto, config: CallerConfig, r: Record, step: Step)
    requires r.acknowledgedAt.Some? && !DeliveryTimedOut(r) && TimedAcks(step.action)
    ensures Apply(crypto, config, r, step).acknowledgedAt.Some? && !DeliveryTimedOut(Apply(crypto, config, r, step))
  {
    AckLostExactlyWhen(crypto, config, r, step);
  }

  /** Once acknowledged, the delivery timeout never fires, not even after a re-dispatch, as long as ack events carry a time. */
  lemma {:induction false} AcknowledgedNeverUndelivered(crypto: Crypto, config: CallerConfig, r: Record, steps: seq<Step>)
    requires r.acknowledgedAt.Some? && !DeliveryTimedOut(r)
    requires forall i :: 0 <= i < |steps| ==> TimedAcks(steps[i].action)
    ensures Run(crypto, config, r, steps).acknowledgedAt.Some? && !DeliveryTimedOut(Run(crypto, config, r, steps))
    decreases |steps|
  {
    if steps != [] {
      StepKeepsAck(crypto, config, r, steps[0]);
      AcknowledgedNeverUndelivered(crypto, config, Apply(crypto, config, r, steps[0]), steps[1..]);
    }
  }

  /** Without a time on the event the promise breaks: acknowledged, re-dispatched, re-acknowledged, and still timed out as undelivered. */
  lemma UntimedAckForgets(crypto: Crypto, config: CallerConfig)
    ensures var r := NewRecord("req", None, None, None, None, None, 120, None, 90, 300, 0);
            var steps := [Step(Acknowledge, 1), Step(Dispatch, 2), Step(SyncEvents([PlatformEvent(AckedEvent, None)]), 3),
                          Step(Dispatch, 4), Step(Evaluate, 120004)];
            Run(crypto, config, r, steps[..1]).acknowledgedAt == Some(1) && DeliveryTimedOut(Run(crypto, config, r, steps))
  {
  }
}
