/**
 The request record as the controller keeps it: one object whose fields the routes and loops
 assign. `Handle` is one route or loop acting on it, so what is proved of runs of the record holds
 of the object.
 */
module CallerRequestObject {
  import opened CallerLifecycle
  import opened CallerRequests
  import opened Collections
  import opened Results

  class CallerRequest {
    const requestId: Id
    const ackDeadlineS: int
    const softTimeoutAt: int
    const hardTimeoutAt: int
    var responderId: Option<Id>
    var hotlineId: Option<Id>
    var verification: Option<Verification>
    var deliveryVerification: Option<Verification>
    var expectedSigner: Option<Key>
    var status: CallerStatus
    var timeoutDecision: TimeoutDecision
    var needsConfirmation: bool
    var ackDeadlineAt: Option<int>
    var sentAt: Option<int>
    var acknowledgedAt: Option<int>
    var timedOutAt: Option<int>
    var lastError: Option<string>
    var resultPackage: Option<ResultPackage>

    function Value(): Record
      reads this
    {
      Record(requestId, responderId, hotlineId, verification, deliveryVerification, expectedSigner, status, timeoutDecision,
             needsConfirmation, ackDeadlineS, ackDeadlineAt, softTimeoutAt, hardTimeoutAt, sentAt, acknowledgedAt, timedOutAt,
             lastError, resultPackage)
    }

    constructor (requestId: Id, responderId: Option<Id>, hotlineId: Option<Id>, verification: Option<Verification>,
                 deliveryVerification: Option<Verification>, expectedSigner: Option<Key>,
                 ackDeadlineS: int, ackDeadlineAt: Option<int>, softS: int, hardS: int, now: int)
      ensures Value() == NewRecord(requestId, responderId, hotlineId, verification, deliveryVerification, expectedSigner,
                                   ackDeadlineS, ackDeadlineAt, softS, hardS, now)
    {
      this.requestId, this.responderId, this.hotlineId, this.expectedSigner := requestId, responderId, hotlineId, expectedSigner;
      this.verification, this.deliveryVerification := verification, deliveryVerification;
      this.ackDeadlineS, this.ackDeadlineAt := ackDeadlineS, ackDeadlineAt;
      softTimeoutAt, hardTimeoutAt := now + softS * 1000, now + hardS * 1000;
      status, timeoutDecision, needsConfirmation := Created, Pending, false;
      sentAt, acknowledgedAt, timedOutAt, lastError, resultPackage := None, None, None, None, None;
    }

    /** Returns whether the evaluation ended the request. */
    method Evaluate(config: CallerConfig, now: int) returns (transition: bool)
      modifies this
      ensures Value() == EvaluateTimeouts(old(Value()), config, now)
      ensures transition <==> old(status) != TimedOut && status == TimedOut
      ensures Terminal(old(status)) ==> Value() == old(Value())
      ensures transition <==> UndeliveredDue(old(Value()), now) || HardTimeoutDue(old(Value()), config, now)
      ensures transition ==> timedOutAt == Some(now) && !needsConfirmation
                             && lastError == Some(if UndeliveredDue(old(Value()), now) then "DELIVERY_OR_ACCEPTANCE_TIMEOUT" else "EXEC_TIMEOUT_HARD")
      ensures !transition ==>
                Value() == old(Value()).(needsConfirmation := old(needsConfirmation) || ConfirmationDue(old(Value()), config, now))
    {
      EvaluationExactlyWhen(Value(), config, now);
      if Terminal(status) {
        return false;
      }
      if status == Sent && ackDeadlineAt.Some? && ackDeadlineAt.value != 0 && now >= ackDeadlineAt.value
         && acknowledgedAt.None? && timeoutDecision != ContinueWait
      {
        FinishTimedOut("DELIVERY_OR_ACCEPTANCE_TIMEOUT", now);
        return true;
      }
      if config.askByDefault && now >= softTimeoutAt && timeoutDecision == Pending {
        needsConfirmation := true;
      }
      if config.autoFinalize && Active(status) && now >= hardTimeoutAt && timeoutDecision != ContinueWait {
        FinishTimedOut("EXEC_TIMEOUT_HARD", now);
        return true;
      }
      return false;
    }

    method FinishTimedOut(code: string, now: int)
      modifies this
      ensures Value() == TimeOut(old(Value()), code, now)
    {
      status := TimedOut;
      timedOutAt := Some(now);
      lastError := Some(code);
      needsConfirmation := false;
    }

    /**
     A dispatch keeps the first sending time and restarts the clock for the acknowledgement: until
     the new deadline the delivery timeout cannot fire, and from then on it does unless the request
     was acknowledged or its user keeps waiting. A dispatch never moves the other deadlines.
     */
    method SetSent(now: int)
      modifies this
      ensures Value() == SetSentState(old(Value()), now)
      ensures status == Sent && (old(sentAt).Some? ==> sentAt == old(sentAt)) && (old(sentAt).None? ==> sentAt == Some(now))
      ensures forall t :: t < now + ackDeadlineS * 1000 ==> !AckOverdue(Value(), t)
      ensures forall t :: t >= now + ackDeadlineS * 1000 ==>
                (AckOverdue(Value(), t) <==> acknowledgedAt.None? && timeoutDecision != ContinueWait && now + ackDeadlineS * 1000 != 0)
      ensures acknowledgedAt == old(acknowledgedAt) && timeoutDecision == old(timeoutDecision)
              && expectedSigner == old(expectedSigner) && resultPackage == old(resultPackage)
    {
      status := Sent;
      lastError := None;
      if sentAt.None? {
        sentAt := Some(now);
      }
      ackDeadlineAt := Some(now + ackDeadlineS * 1000);
    }

    method Refuse(code: string)
      modifies this
      ensures Value() == Refused(old(Value()), code)
    {
      status := Unverified;
      lastError := Some(code);
    }

    /** Whatever arrives, the request is terminal afterwards. */
    method ApplyResult(crypto: Crypto, body: ResultPackage, attachments: seq<Attachment>)
      modifies this
      ensures Value() == ApplyResultPackage(crypto, old(Value()), body, attachments)
      ensures Terminal(status) && status != TimedOut && resultPackage == Some(body)
      ensures status == Unverified && lastError == Some("RESULT_CONTEXT_MISMATCH") <==> OutOfContext(old(Value()), body)
      ensures status == Succeeded ==> !OutOfContext(old(Value()), body) && SignatureAccepted(crypto, old(Value()), body)
                                      && ArtifactsBound(crypto, body, attachments) && body.status == Ok
      ensures status == Succeeded <==> lastError == None
    {
      VerdictExactlyWhen(crypto, Value(), body, attachments);
      ghost var before := Value();
      resultPackage := Some(body);
      assert ContextMatches(Value(), body) == ContextMatches(before, body);
      var bound := VerifyArtifactBindings(crypto, body, attachments);
      if !ContextMatches(Value(), body) {
        Refuse("RESULT_CONTEXT_MISMATCH");
      } else if !SignatureAccepted(crypto, Value(), body) {
        Refuse("RESULT_SIGNATURE_INVALID");
      } else if !bound {
        Refuse("RESULT_ARTIFACT_INVALID");
      } else if body.schemaValid == Some(false) {
        Refuse("RESULT_SCHEMA_INVALID");
      } else if body.status == Ok {
        status := Succeeded;
        lastError := None;
      } else {
        status := CallerStatus.Failed;
        lastError := Some(if Given(body.errorCode) then body.errorCode.value else "EXEC_UNKNOWN");
      }
    }

    /** Platform events can only acknowledge: a terminal or acked request stays as it is, any other is acked by the first ack event. */
    method ApplyEvents(events: seq<PlatformEvent>) returns (acked: bool)
      modifies this
      ensures Value() == ApplyPlatformEvents(old(Value()), events)
      ensures Terminal(old(status)) || old(status) == Acked || !acked ==> Value() == old(Value())
      ensures !Terminal(old(status)) && acked ==> status == Acked
      ensures resultPackage == old(resultPackage) && timeoutDecision == old(timeoutDecision)
      ensures acked <==> exists i :: 0 <= i < |events| && events[i].eventType.AckedEvent?
      ensures Value() != old(Value()) ==> lastError == None && exists i :: 0 <= i < |events| && IsFirstAck(events, i) && acknowledgedAt == events[i].at
    {
      var ack := FirstAck(events);
      FirstAckIsFirst(events);
      if ack.Some? && !Terminal(status) && status != Acked {
        status := Acked;
        lastError := None;
        acknowledgedAt := ack.value.at;
      }
      acked := ack.Some?;
    }

    /**
     A decision settles the question: nobody is asked again, stopping leaves nothing open, and
     after deciding to wait no clock ends the request. A settled request keeps its verdict.
     */
    method Decide(continueWait: bool, now: int)
      modifies this
      ensures Value() == DecideTimeout(old(Value()), continueWait, now)
      ensures Coherent(Value()) && !needsConfirmation && timeoutDecision != Pending
      ensures !continueWait ==> Terminal(status)
      ensures continueWait ==> forall config, t :: EvaluateTimeouts(Value(), config, t).status == status
      ensures Terminal(old(status)) || continueWait ==> status == old(status) && lastError == old(lastError) && timedOutAt == old(timedOutAt)
      ensures !Terminal(old(status)) && !continueWait ==>
                status == TimedOut && lastError == Some("EXEC_TIMEOUT_MANUAL_STOP") && timedOutAt == Some(now)
      ensures resultPackage == old(resultPackage)
    {
      timeoutDecision := if continueWait then ContinueWait else StopWait;
      needsConfirmation := false;
      if !continueWait && !Terminal(status) {
        status := TimedOut;
        lastError := Some("EXEC_TIMEOUT_MANUAL_STOP");
        timedOutAt := Some(now);
      }
    }

    /** A pinned signer is never replaced: a mismatch with it, or missing ids, leaves the record exactly as it was. */
    method Prepare(g: Grant) returns (ok: bool)
      modifies this
      ensures ok ==> PrepareRequest(old(Value()), g) == Some(Value())
      ensures old(expectedSigner).Some? ==> expectedSigner == old(expectedSigner)
      ensures ok ==> Given(responderId) && Given(hotlineId) && status == old(status)
      ensures ok && g.signer.Some? ==> expectedSigner == g.signer
      ensures ok ==> responderId == (if g.responderId.Some? && g.responderId.value != "" then g.responderId else old(responderId))
      ensures ok ==> hotlineId == (if g.hotlineId.Some? && g.hotlineId.value != "" then g.hotlineId else old(hotlineId))
      ensures ok && g.verification.Some? ==> verification == g.verification && deliveryVerification == g.verification
      ensures ok && g.verification.None? ==> verification == old(verification)
      ensures !ok ==> PrepareRequest(old(Value()), g).None? && Value() == old(Value())
    {
      var responder := if Given(g.responderId) then g.responderId else responderId;
      var hotline := if Given(g.hotlineId) then g.hotlineId else hotlineId;
      if !Given(responder) || !Given(hotline) {
        return false;
      }
      if expectedSigner.Some? && g.signer.Some? && expectedSigner != g.signer {
        return false;
      }
      responderId, hotlineId := responder, hotline;
      if g.verification.Some? {
        verification := g.verification;
      }
      deliveryVerification := g.verification;
      if expectedSigner.None? {
        expectedSigner := g.signer;
      }
      lastError := None;
      return true;
    }

    /** An open request is acknowledged now, a settled one left alone. */
    method Acknowledge(now: int)
      modifies this
      ensures Value() == MarkAcked(old(Value()), now)
      ensures Terminal(old(status)) ==> Value() == old(Value())
      ensures !Terminal(old(status)) ==>
                Value() == old(Value()).(status := Acked, acknowledgedAt := Some(now), lastError := None)
    {
      if !Terminal(status) {
        status := Acked;
        acknowledgedAt := Some(now);
        lastError := None;
      }
    }

    /**
     One route or loop, as one step. A settled request keeps its status and its package whatever
     arrives, the deadlines never move, and coherence is kept.
     */
    method Handle(crypto: Crypto, config: CallerConfig, step: Step)
      modifies this
      ensures Value() == Apply(crypto, config, old(Value()), step)
      ensures Terminal(old(status)) ==> status == old(status) && resultPackage == old(resultPackage)
      ensures Coherent(old(Value())) ==> Coherent(Value())
    {
      match step.action {
        case Evaluate => var _ := Evaluate(config, step.now);
        case Dispatch =>
          if !Terminal(status) {
            SetSent(step.now);
          }
        case Acknowledge => Acknowledge(step.now);
        case SyncEvents(events) => var _ := ApplyEvents(events);
        case DeliverResult(body, attachments) =>
          if !Terminal(status) {
            ApplyResult(crypto, body, attachments);
          }
        case DeliverUnreadable =>
          if !Terminal(status) {
            Refuse("RESULT_BODY_INVALID_JSON");
          }
        case Decide(continueWait) => Decide(continueWait, step.now);
        case Prepare(grant) => var _ := Prepare(grant);
        case DraftContract =>
      }
    }
  }

  /** The binding check as the controller runs it: one declared artifact after another, first failure ends it. */
  method VerifyArtifactBindings(crypto: Crypto, body: ResultPackage, attachments: seq<Attachment>) returns (ok: bool)
    ensures ok == ArtifactsBound(crypto, body, attachments)
  {
    if body.artifacts == [] {
      return attachments == [];
    }
    var k := 0;
    while k < |body.artifacts|
      invariant 0 <= k <= |body.artifacts|
      invariant forall j :: 0 <= j < k ==> Bound(crypto, body.artifacts[j], attachments)
    {
      var declared := body.artifacts[k];
      var i := FirstNamed(attachments, declared.name);
      if i == |attachments| {
        return false;
      }
      if Given(declared.mediaType) && attachments[i].mediaType != declared.mediaType {
        return false;
      }
      if declared.byteSize.Some? && attachments[i].byteSize != declared.byteSize {
        return false;
      }
      if Given(declared.sha256) && crypto.digest(AttachedBytes(attachments[i])) != declared.sha256.value {
        return false;
      }
      k := k + 1;
    }
    return true;
  }
}
