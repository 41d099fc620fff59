/** The caller's record of one request, and everything that changes it. */
module CallerRequests {
  import opened Base64
  import opened Collections
  import opened ResponderTasks
  import opened Results

  datatype CallerStatus = Created | Sent | Acked | Succeeded | Failed | Unverified | TimedOut

  datatype TimeoutDecision = Pending | ContinueWait | StopWait

  datatype Verification = Verification(displayCode: Option<string>)

  datatype CallerConfig = CallerConfig(askByDefault: bool, autoFinalize: bool)

  /** Times are milliseconds; deadlines are fixed numbers, `None` when the field is unset. */
  datatype Record = Record(
    requestId: Id,
    responderId: Option<Id>,
    hotlineId: Option<Id>,
    verification: Option<Verification>,
    deliveryVerification: Option<Verification>,
    expectedSigner: Option<Key>,
    status: CallerStatus,
    timeoutDecision: TimeoutDecision,
    needsConfirmation: bool,
    ackDeadlineS: int,
    ackDeadlineAt: Option<int>,
    softTimeoutAt: int,
    hardTimeoutAt: int,
    sentAt: Option<int>,
    acknowledgedAt: Option<int>,
    timedOutAt: Option<int>,
    lastError: Option<string>,
    resultPackage: Option<ResultPackage>)

  predicate Terminal(status: CallerStatus) {
    status in {Succeeded, CallerStatus.Failed, Unverified, TimedOut}
  }

  predicate Active(status: CallerStatus) {
    status in {Created, Sent, Acked}
  }

  function NewRecord(requestId: Id, responderId: Option<Id>, hotlineId: Option<Id>, verification: Option<Verification>,
                     deliveryVerification: Option<Verification>, expectedSigner: Option<Key>,
                     ackDeadlineS: int, ackDeadlineAt: Option<int>, softS: int, hardS: int, now: int): Record
  {
    Record(requestId, responderId, hotlineId, verification, deliveryVerification, expectedSigner, Created, Pending, false,
           ackDeadlineS, ackDeadlineAt, now + softS * 1000, now + hardS * 1000, None, None, None, None, None)
  }

  // ------------------------------------------------------------------------- timeouts

  /** A deadline of zero reads as unset. */
  predicate AckOverdue(r: Record, now: int) {
    && r.status == Sent
    && r.ackDeadlineAt.Some? && r.ackDeadlineAt.value != 0 && now >= r.ackDeadlineAt.value
    && r.acknowledgedAt.None?
    && r.timeoutDecision != ContinueWait
  }

  function TimeOut(r: Record, code: string, now: int): Record {
    r.(status := TimedOut, timedOutAt := Some(now), lastError := Some(code), needsConfirmation := false)
  }

  function EvaluateTimeouts(r: Record, config: CallerConfig, now: int): Record {
    if Terminal(r.status) then r
    else if AckOverdue(r, now) then TimeOut(r, "DELIVERY_OR_ACCEPTANCE_TIMEOUT", now)
    else
      var asked := if config.askByDefault && now >= r.softTimeoutAt && r.timeoutDecision == Pending
                   then r.(needsConfirmation := true) else r;
      if config.autoFinalize && Active(r.status) && now >= r.hardTimeoutAt && r.timeoutDecision != ContinueWait
      then TimeOut(asked, "EXEC_TIMEOUT_HARD", now) else asked
  }

  /** Sent, past a deadline that is set, never acknowledged, and nobody keeps waiting. */
  predicate UndeliveredDue(r: Record, now: int) {
    && r.status == Sent && r.acknowledgedAt == None && r.timeoutDecision != ContinueWait
    && r.ackDeadlineAt.Some? && r.ackDeadlineAt.value != 0 && r.ackDeadlineAt.value <= now
  }

  /** Open, at or past the hard deadline, with requests ended automatically and nobody keeping waiting. */
  predicate HardTimeoutDue(r: Record, config: CallerConfig, now: int) {
    (r.status == Created || r.status == Sent || r.status == Acked)
    && config.autoFinalize && r.hardTimeoutAt <= now && r.timeoutDecision != ContinueWait
  }

  /** The user is to be asked: at or past the soft deadline, asking by default, and undecided. */
  predicate ConfirmationDue(r: Record, config: CallerConfig, now: int) {
    (r.status == Created || r.status == Sent || r.status == Acked)
    && config.askByDefault && r.softTimeoutAt <= now && r.timeoutDecision == Pending
  }

  /** An evaluation ends a request exactly when one of the two timeouts is due, under that timeout's code; otherwise all it can do is ask. */
  lemma EvaluationExactlyWhen(r: Record, config: CallerConfig, now: int)
    ensures var r' := EvaluateTimeouts(r, config, now);
            && (r.status != TimedOut && r'.status == TimedOut <==> UndeliveredDue(r, now) || HardTimeoutDue(r, config, now))
            && (UndeliveredDue(r, now) || HardTimeoutDue(r, config, now) ==>
                  r' == r.(status := TimedOut, timedOutAt := Some(now), needsConfirmation := false,
                           lastError := Some(if UndeliveredDue(r, now) then "DELIVERY_OR_ACCEPTANCE_TIMEOUT" else "EXEC_TIMEOUT_HARD")))
            && (!UndeliveredDue(r, now) && !HardTimeoutDue(r, config, now) ==>
                  r' == r.(needsConfirmation := r.needsConfirmation || ConfirmationDue(r, config, now)))
  {
  }

  // -------------------------------------------------------------------------- results

  /** The index of the first attachment with this name, or the length when there is none. */
  function FirstNamed(attachments: seq<Attachment>, name: Option<string>): (i: nat)
    ensures i <= |attachments|
    ensures i < |attachments| ==> attachments[i].name == name
    ensures forall k :: 0 <= k < i ==> attachments[k].name != name
  {
    if attachments == [] then 0
    else if attachments[0].name == name then 0
    else 1 + FirstNamed(attachments[1..], name)
  }

  function AttachedBytes(a: Attachment): seq<Byte> {
    if a.contentBase64.Some? then Decode(a.contentBase64.value) else []
  }

  /** A declared artifact is bound when the first attachment of its name agrees on every field it declares. */
  predicate Bound(crypto: Crypto, d: Descriptor, attachments: seq<Attachment>) {
    var i := FirstNamed(attachments, d.name);
    && i < |attachments|
    && (Given(d.mediaType) ==> attachments[i].mediaType == d.mediaType)
    && (d.byteSize.Some? ==> attachments[i].byteSize == d.byteSize)
    && (Given(d.sha256) ==> crypto.digest(AttachedBytes(attachments[i])) == d.sha256.value)
  }

  predicate ArtifactsBound(crypto: Crypto, body: ResultPackage, attachments: seq<Attachment>) {
    if body.artifacts == [] then attachments == []
    else forall k :: 0 <= k < |body.artifacts| ==> Bound(crypto, body.artifacts[k], attachments)
  }

  predicate ContextMatches(r: Record, body: ResultPackage) {
    && body.requestId == r.requestId
    && (body.resultVersion.Some? ==> body.resultVersion.value == "0.1.0")
    && (Given(r.responderId) ==> body.responderId == r.responderId)
    && (Given(r.hotlineId) ==> body.hotlineId == r.hotlineId)
    && (r.verification.Some? && Given(r.verification.value.displayCode) ==> body.displayCode == r.verification.value.displayCode)
  }

  /** A package without a signature passes unless it says itself that its signature was invalid. */
  predicate SignatureAccepted(crypto: Crypto, r: Record, body: ResultPackage) {
    if body.signature.None? then body.signatureValid != Some(false)
    else r.expectedSigner.Some? && SignatureVerifies(crypto, r.expectedSigner.value, body)
  }

  datatype Judgement = Judgement(status: CallerStatus, error: Option<string>)

  /** The checks in order; the first that fails decides. */
  function Judge(crypto: Crypto, r: Record, body: ResultPackage, attachments: seq<Attachment>): (j: Judgement)
    ensures Terminal(j.status) && j.status != TimedOut
    ensures j.status == Succeeded ==> SignatureAccepted(crypto, r, body) && ArtifactsBound(crypto, body, attachments)
    ensures j.status == Succeeded <==> j.error.None?
  {
    if !ContextMatches(r, body) then Judgement(Unverified, Some("RESULT_CONTEXT_MISMATCH"))
    else if !SignatureAccepted(crypto, r, body) then Judgement(Unverified, Some("RESULT_SIGNATURE_INVALID"))
    else if !ArtifactsBound(crypto, body, attachments) then Judgement(Unverified, Some("RESULT_ARTIFACT_INVALID"))
    else if body.schemaValid == Some(false) then Judgement(Unverified, Some("RESULT_SCHEMA_INVALID"))
    else if body.status == Ok then Judgement(Succeeded, None)
    else Judgement(CallerStatus.Failed, Some(if Given(body.errorCode) then body.errorCode.value else "EXEC_UNKNOWN"))
  }

  /** The package is about another request, of another version, or from another responder, hotline or display code than the record has set. */
  predicate OutOfContext(r: Record, body: ResultPackage) {
    || body.requestId != r.requestId
    || (body.resultVersion.Some? && body.resultVersion.value != "0.1.0")
    || (r.responderId.Some? && r.responderId.value != "" && body.responderId != r.responderId)
    || (r.hotlineId.Some? && r.hotlineId.value != "" && body.hotlineId != r.hotlineId)
    || (r.verification.Some? && r.verification.value.displayCode.Some? && r.verification.value.displayCode.value != ""
        && body.displayCode != r.verification.value.displayCode)
  }

  /** Each verdict, in terms of the package and the record: out of context first, and success only when nothing at all is wrong. */
  lemma VerdictExactlyWhen(crypto: Crypto, r: Record, body: ResultPackage, attachments: seq<Attachment>)
    ensures var j := Judge(crypto, r, body, attachments);
            && (j == Judgement(Unverified, Some("RESULT_CONTEXT_MISMATCH")) <==> OutOfContext(r, body))
            && (j == Judgement(Unverified, Some("RESULT_SIGNATURE_INVALID")) <==>
                  !OutOfContext(r, body) && !SignatureAccepted(crypto, r, body))
            && (j == Judgement(Unverified, Some("RESULT_ARTIFACT_INVALID")) <==>
                  !OutOfContext(r, body) && SignatureAccepted(crypto, r, body) && !ArtifactsBound(crypto, body, attachments))
            && (j == Judgement(Unverified, Some("RESULT_SCHEMA_INVALID")) <==>
                  !OutOfContext(r, body) && SignatureAccepted(crypto, r, body) && ArtifactsBound(crypto, body, attachments)
                  && body.schemaValid == Some(false))
            && (j.status == Succeeded <==>
                  !OutOfContext(r, body) && SignatureAccepted(crypto, r, body) && ArtifactsBound(crypto, body, attachments)
                  && body.schemaValid != Some(false) && body.status == Ok)
            && (j.status == CallerStatus.Failed ==>
                  body.status != Ok && j.error == Some(if body.errorCode.Some? && body.errorCode.value != "" then body.errorCode.value else "EXEC_UNKNOWN"))
            && (j.status == Unverified || j.status == CallerStatus.Failed || j.status == Succeeded)
  {
  }

  function ApplyResultPackage(crypto: Crypto, r: Record, body: ResultPackage, attachments: seq<Attachment>): Record {
    var j := Judge(crypto, r, body, attachments);
    r.(resultPackage := Some(body), status := j.status, lastError := j.error)
  }

  // ------------------------------------------------------------------- the other routes

  function SetSentState(r: Record, now: int): Record {
    r.(status := Sent, lastError := None, sentAt := if r.sentAt.Some? then r.sentAt else Some(now),
       ackDeadlineAt := Some(now + r.ackDeadlineS * 1000))
  }

  datatype EventType = AckedEvent | CompletedEvent | FailedEvent | OtherEvent

  datatype PlatformEvent = PlatformEvent(eventType: EventType, at: Option<int>)

  function FirstAck(events: seq<PlatformEvent>): (e: Option<PlatformEvent>)
    ensures e.Some? <==> exists i :: 0 <= i < |events| && events[i].eventType.AckedEvent?
    ensures e.Some? ==> e.value in events && e.value.eventType.AckedEvent?
  {
    if events == [] then None
    else if events[0].eventType.AckedEvent? then Some(events[0])
    else FirstAck(events[1..])
  }

  predicate IsFirstAck(events: seq<PlatformEvent>, i: nat)
    requires i < |events|
  {
    events[i].eventType.AckedEvent? && forall j :: 0 <= j < i ==> !events[j].eventType.AckedEvent?
  }

  lemma {:induction false} FirstAckIsFirst(events: seq<PlatformEvent>)
    ensures FirstAck(events).Some? ==> exists i :: 0 <= i < |events| && IsFirstAck(events, i) && FirstAck(events) == Some(events[i])
  {
    if events != [] && !events[0].eventType.AckedEvent? && FirstAck(events).Some? {
      FirstAckIsFirst(events[1..]);
      var i :| 0 <= i < |events[1..]| && IsFirstAck(events[1..], i) && FirstAck(events[1..]) == Some(events[1..][i]);
      assert forall j :: 0 < j < i + 1 ==> events[j] == events[1..][j - 1];
      assert IsFirstAck(events, i + 1);
    } else if events != [] && FirstAck(events).Some? {
      assert IsFirstAck(events, 0);
    }
  }

  function ApplyPlatformEvents(r: Record, events: seq<PlatformEvent>): Record {
    var ack := FirstAck(events);
    if ack.Some? && !Terminal(r.status) && r.status != Acked
    then r.(status := Acked, lastError := None, acknowledgedAt := ack.value.at)
    else r
  }

  function MarkSent(r: Record, now: int): Record {
    if Terminal(r.status) then r else SetSentState(r, now)
  }

  function MarkAcked(r: Record, now: int): Record {
    if Terminal(r.status) then r else r.(status := Acked, acknowledgedAt := Some(now), lastError := None)
  }

  function DecideTimeout(r: Record, continueWait: bool, now: int): Record {
    var decided := r.(timeoutDecision := if continueWait then ContinueWait else StopWait, needsConfirmation := false);
    if !continueWait && !Terminal(r.status)
    then decided.(status := TimedOut, lastError := Some("EXEC_TIMEOUT_MANUAL_STOP"), timedOutAt := Some(now))
    else decided
  }

  function PostResult(crypto: Crypto, r: Record, body: ResultPackage, attachments: seq<Attachment>): Record {
    if Terminal(r.status) then r else ApplyResultPackage(crypto, r, body, attachments)
  }

  function Refused(r: Record, code: string): Record {
    r.(status := Unverified, lastError := Some(code))
  }

  function MarkUnreadable(r: Record): Record {
    if Terminal(r.status) then r else Refused(r, "RESULT_BODY_INVALID_JSON")
  }

  /** What the platform answers when a request is prepared, with the ids the route was given. */
  datatype Grant = Grant(responderId: Option<Id>, hotlineId: Option<Id>, verification: Option<Verification>, signer: Option<Key>)

  /** `None` is the thrown error: missing ids, or a signer other than the one already pinned. */
  function PrepareRequest(r: Record, g: Grant): Option<Record> {
    var responderId := if Given(g.responderId) then g.responderId else r.responderId;
    var hotlineId := if Given(g.hotlineId) then g.hotlineId else r.hotlineId;
    if !Given(responderId) || !Given(hotlineId) then None
    else if r.expectedSigner.Some? && g.signer.Some? && r.expectedSigner != g.signer then None
    else Some(r.(
      responderId := responderId,
      hotlineId := hotlineId,
      verification := if g.verification.Some? then g.verification else r.verification,
      deliveryVerification := g.verification,
      expectedSigner := if r.expectedSigner.Some? then r.expectedSigner else g.signer,
      lastError := None))
  }

  /** The verification the envelope carries: the record's own, else the delivery meta's. */
  function DispatchedCode(r: Record): Option<string> {
    if r.verification.Some? then r.verification.value.displayCode
    else if r.deliveryVerification.Some? then r.deliveryVerification.value.displayCode
    else None
  }

  function BuildDispatchEnvelope(r: Record, messageId: Id, from: Option<Id>, to: Option<Id>, priority: Option<int>): TaskEnvelope {
    TaskEnvelope(
      messageId,
      None,
      None,
      if Given(from) then from else Some("caller-controller"),
      if Given(to) then to else r.responderId,
      Some(r.requestId),
      r.responderId,
      r.hotlineId,
      DispatchedCode(r),
      if priority.Some? && priority.value != 0 then priority.value else 5)
  }

  /** What is dispatched after a preparation names the request, the ids asked for or already set, and the granted display code first. */
  lemma PreparedThenDispatched(r: Record, g: Grant, messageId: Id, from: Option<Id>, to: Option<Id>, priority: Option<int>)
    requires PrepareRequest(r, g).Some?
    ensures var env := BuildDispatchEnvelope(PrepareRequest(r, g).value, messageId, from, to, priority);
            && env.messageId == messageId && env.requestId == Some(r.requestId) && env.taskId == None && env.attemptId == None
            && env.responderId == (if g.responderId.Some? && g.responderId.value != "" then g.responderId else r.responderId)
            && env.hotlineId == (if g.hotlineId.Some? && g.hotlineId.value != "" then g.hotlineId else r.hotlineId)
            && env.responderId.Some? && env.responderId.value != "" && env.hotlineId.Some? && env.hotlineId.value != ""
            && env.to == (if to.Some? && to.value != "" then to else env.responderId)
            && env.from == (if from.Some? && from.value != "" then from else Some("caller-controller"))
            && (g.verification.Some? ==> env.displayCode == g.verification.value.displayCode)
            && (g.verification.None? && r.verification.Some? ==> env.displayCode == r.verification.value.displayCode)
            && (g.verification.None? && r.verification.None? ==> env.displayCode == None)
            && (priority.Some? && priority.value != 0 ==> env.priority == priority.value)
            && (priority.None? || priority.value == 0 ==> env.priority == 5)
  {
  }

  // ----------------------------------------------------------------- reading an envelope

  datatype Extracted = Extracted(resultPackage: Option<ResultPackage>, attachments: seq<Attachment>, parseError: bool)

  function FirstOf<T>(first: Option<T>, second: Option<T>): Option<T> {
    if first.Some? then first else second
  }

  function ExtractResult(env: ResultEnvelope): Extracted {
    var payload := env.payload.GetOr(Payload(None, None, None, None));
    var direct := FirstOf(env.resultPackage, payload.resultPackage);
    if direct.Some? then
      Extracted(direct, FirstOf(env.attachments, payload.attachments).GetOr([]), false)
    else
      match env.bodyText
      case PackageJson(package) => Extracted(Some(package), env.attachments.GetOr([]), false)
      case OtherJson => Extracted(None, env.attachments.GetOr([]), false)
      case Unparsable => Extracted(None, env.attachments.GetOr([]), true)
      case Blank =>
        Extracted(if payload.asPackage.Some? && payload.asPackage.value.requestId != "" then payload.asPackage else None,
                  env.attachments.GetOr([]), false)
  }

  /** Where a package is looked for: on the envelope, in its payload, in its text, and as the payload itself, the first that holds one. */
  lemma ReadFirstPlace(env: ResultEnvelope)
    ensures EnvelopeDescriptors(env)
         == if env.descriptors.Some? then env.descriptors.value
            else if env.payload.Some? && env.payload.value.descriptors.Some? then env.payload.value.descriptors.value else []
    ensures var x := ExtractResult(env);
            var inPayload := env.payload.Some? && env.payload.value.resultPackage.Some?;
            && (env.resultPackage.Some? ==> x.resultPackage == env.resultPackage)
            && (env.resultPackage.None? && inPayload ==> x.resultPackage == env.payload.value.resultPackage)
            && (env.resultPackage.None? && !inPayload && env.bodyText.PackageJson? ==> x.resultPackage == Some(env.bodyText.package))
            && (env.resultPackage.None? && !inPayload && (env.bodyText.OtherJson? || env.bodyText.Unparsable?) ==> x.resultPackage == None)
            && (env.resultPackage.None? && !inPayload && env.bodyText.Blank? ==>
                  x.resultPackage == if env.payload.Some? && env.payload.value.asPackage.Some? && env.payload.value.asPackage.value.requestId != ""
                                     then env.payload.value.asPackage else None)
            && (x.parseError <==> env.resultPackage.None? && !inPayload && env.bodyText.Unparsable?)
            && (env.attachments.Some? ==> x.attachments == env.attachments.value)
            && (env.attachments.None? ==>
                  x.attachments == if (env.resultPackage.Some? || inPayload) && env.payload.Some? && env.payload.value.attachments.Some?
                                   then env.payload.value.attachments.value else [])
  {
  }

  function EnvelopeDescriptors(env: ResultEnvelope): seq<ChannelDescriptor> {
    FirstOf(env.descriptors, env.payload.GetOr(Payload(None, None, None, None)).descriptors).GetOr([])
  }
}
