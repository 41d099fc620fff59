/**
 One request from dispatch to verdict: the envelope the caller builds, the task the responder
 makes of it, the package it signs, the envelope it sends back over either artifact channel,
 and what the caller's verification then decides.
 */
module EndToEnd {
  import opened ArtifactChannel
  import opened Base64
  import opened CallerRequests
  import opened Collections
  import opened ResponderTasks
  import opened ResultBuilder
  import opened Results

  datatype Verdict = Verdict(status: CallerStatus, code: Option<string>)

  function VerdictOf(r: Record): Verdict {
    Verdict(r.status, r.lastError)
  }

  // ------------------------------------------------------------- what should come out

  predicate Oversized(signer: Signer, e: Execution) {
    TotalBytes(Materials(signer.crypto, e)) > signer.maxAttachmentBytes
  }

  predicate SameContent(a: Artifact, b: Artifact) {
    a.mediaType == b.mediaType && a.byteSize == b.byteSize && a.sha256 == b.sha256
  }

  /** Artifacts are told apart by name only, so two of the same name must be the same artifact. */
  predicate NamesAgree(artifacts: seq<Artifact>) {
    forall i, j :: 0 <= i < |artifacts| && 0 <= j < |artifacts| && artifacts[i].name == artifacts[j].name ==>
      SameContent(artifacts[i], artifacts[j])
  }

  /** Only an ok result declares its artifacts; any other result must not carry attachments. */
  predicate Deliverable(signer: Signer, e: Execution) {
    e.Reported? ==> if e.status == Ok then NamesAgree(MaterializeAll(signer.crypto, e.artifacts)) else e.artifacts == []
  }

  /** The verdict an execution deserves, stated over the execution alone. */
  function Expected(signer: Signer, e: Execution): Verdict {
    if Oversized(signer, e) then Verdict(CallerStatus.Failed, Some("RESULT_ARTIFACT_TOO_LARGE"))
    else if !Deliverable(signer, e) then Verdict(Unverified, Some("RESULT_ARTIFACT_INVALID"))
    else match e
      case NullResult => Verdict(CallerStatus.Failed, Some("EXECUTOR_RUNTIME_ERROR"))
      case UndefinedResult => Verdict(CallerStatus.Failed, Some("EXECUTOR_INVALID_RESULT"))
      case PrimitiveResult => Verdict(CallerStatus.Failed, Some("EXECUTOR_INVALID_RESULT"))
      case Reported(status, _, code, _, schemaValid) =>
        if status == Unrecognised then Verdict(CallerStatus.Failed, Some("EXECUTOR_INVALID_RESULT"))
        else if schemaValid == Some(false) then Verdict(Unverified, Some("RESULT_SCHEMA_INVALID"))
        else if status == Ok then Verdict(Succeeded, None)
        else Verdict(CallerStatus.Failed, Some(if Given(code) then code.value else "EXECUTOR_RUNTIME_ERROR"))
  }

  // --------------------------------------------------------------- what does come out

  /** The task the responder holds once it has run the request. */
  function Executed(signer: Signer, env: TaskEnvelope, identity: Identity, ids: FreshIds, now: int, e: Execution): Task
    requires identity.hotlineIds != []
  {
    FinishTask(signer, CreateTask(env, identity, ids, now), e)
  }

  /** What the caller verifies an envelope against: its own attachments and whatever it could download. */
  function ReceivedAttachments(crypto: Crypto, env: ResultEnvelope, channel: bool, downloads: nat -> DownloadAnswer): seq<Attachment> {
    var descriptors := EnvelopeDescriptors(env);
    ExtractResult(env).attachments +
    (if channel && descriptors != [] then Resolved(crypto, descriptors, downloads) else [])
  }

  function Receive(crypto: Crypto, r: Record, env: ResultEnvelope, channel: bool, downloads: nat -> DownloadAnswer): Record {
    var body := ExtractResult(env).resultPackage;
    if body.None? then r else ApplyResultPackage(crypto, r, body.value, ReceivedAttachments(crypto, env, channel, downloads))
  }

  // ----------------------------------------------------------------------- the checks

  /** A dispatched request that the responder accepted: the context the result must match is the one it carries. */
  ghost predicate Dispatched(r: Record, env: TaskEnvelope, identity: Identity) {
    && r.requestId != ""
    && identity.hotlineIds != []
    && Addressed(env, identity)
    && exists messageId, from, to, priority :: env == BuildDispatchEnvelope(r, messageId, from, to, priority)
  }

  lemma ContextSurvives(signer: Signer, r: Record, env: TaskEnvelope, identity: Identity, ids: FreshIds, now: int, s: Settled)
    requires Dispatched(r, env, identity)
    ensures ContextMatches(r, BuildPayload(CreateTask(env, identity, ids, now), s))
  {
  }

  lemma {:induction false} FirstNamedBelow(attachments: seq<Attachment>, name: Option<string>, k: nat)
    requires k < |attachments| && attachments[k].name == name
    ensures FirstNamed(attachments, name) <= k
  {
  }

  /** A declared artifact against the inline attachments: what decides is the first artifact of its name. */
  lemma InlineBound(crypto: Crypto, artifacts: seq<Artifact>, k: nat)
    requires k < |artifacts| && forall a :: a in artifacts ==> a.mediaType != "" && a.sha256 == crypto.digest(Decode(a.contentBase64))
    ensures FirstNamed(InlineAll(artifacts), Some(artifacts[k].name)) <= k
    ensures Bound(crypto, Declared(artifacts[k]), InlineAll(artifacts))
       <==> SameContent(artifacts[k], artifacts[FirstNamed(InlineAll(artifacts), Some(artifacts[k].name))])
  {
    var attachments := InlineAll(artifacts);
    FirstNamedBelow(attachments, Some(artifacts[k].name), k);
    var first := artifacts[FirstNamed(attachments, Some(artifacts[k].name))];
    assert first in artifacts;
    assert AttachedBytes(Inline(first)) == Decode(first.contentBase64);
  }

  /** The inline attachments bind a package exactly when same-named artifacts agree. */
  lemma InlineBinding(crypto: Crypto, artifacts: seq<Artifact>, body: ResultPackage)
    requires forall a :: a in artifacts ==> a.mediaType != "" && a.sha256 == crypto.digest(Decode(a.contentBase64))
    requires body.artifacts == DeclaredAll(artifacts)
    ensures ArtifactsBound(crypto, body, InlineAll(artifacts)) <==> NamesAgree(artifacts)
  {
    var attachments := InlineAll(artifacts);
    forall k | 0 <= k < |artifacts|
      ensures FirstNamed(attachments, Some(artifacts[k].name)) <= k
      ensures artifacts[FirstNamed(attachments, Some(artifacts[k].name))].name == artifacts[k].name
      ensures Bound(crypto, body.artifacts[k], attachments)
         <==> SameContent(artifacts[k], artifacts[FirstNamed(attachments, Some(artifacts[k].name))])
    {
      InlineBound(crypto, artifacts, k);
    }
    if ArtifactsBound(crypto, body, attachments) {
      forall i, j | 0 <= i < |artifacts| && 0 <= j < |artifacts| && artifacts[i].name == artifacts[j].name
        ensures SameContent(artifacts[i], artifacts[j])
      {
        assert Bound(crypto, body.artifacts[i], attachments) && Bound(crypto, body.artifacts[j], attachments);
      }
    }
  }

  /** The package of a settled execution is bound by its inline attachments exactly when it is deliverable. */
  lemma {:induction false} PackageBinding(signer: Signer, task: Task, e: Execution)
    ensures var s := Settle(signer, e);
            ArtifactsBound(signer.crypto, Sign(signer.crypto, signer.key, BuildPayload(task, s)), InlineAll(s.artifacts))
            <==> Oversized(signer, e) || Deliverable(signer, e)
  {
    var s := Settle(signer, e);
    var body := Sign(signer.crypto, signer.key, BuildPayload(task, s));
    if s.execution.Reported? && s.execution.status == Ok {
      InlineBinding(signer.crypto, s.artifacts, body);
    } else {
      assert body.artifacts == [];
      NothingDeclaredBinds(signer, e);
    }
  }

  lemma NothingDeclaredBinds(signer: Signer, e: Execution)
    requires var s := Settle(signer, e); !(s.execution.Reported? && s.execution.status == Ok)
    ensures InlineAll(Settle(signer, e).artifacts) == [] <==> Oversized(signer, e) || Deliverable(signer, e)
  {
    var artifacts := Settle(signer, e).artifacts;
    assert |InlineAll(artifacts)| == |artifacts|;
    assert e.Reported? ==> |MaterializeAll(signer.crypto, e.artifacts)| == |e.artifacts|;
  }

  /** An execution that is not null goes through the caller's checks to its verdict. */
  lemma {:induction false} SettledVerdict(signer: Signer, r: Record, env: TaskEnvelope, identity: Identity, ids: FreshIds, now: int, e: Execution)
    requires IgnoresSignature(signer.crypto) && Dispatched(r, env, identity) && !e.NullResult?
    ensures var task := CreateTask(env, identity, ids, now);
            var s := Settle(signer, e);
            var body := Sign(signer.crypto, signer.key, BuildPayload(task, s));
            VerdictOf(ApplyResultPackage(signer.crypto, r, body, InlineAll(s.artifacts)))
            == if r.expectedSigner == Some(signer.key) then Expected(signer, e) else Verdict(Unverified, Some("RESULT_SIGNATURE_INVALID"))
  {
    var task := CreateTask(env, identity, ids, now);
    var s := Settle(signer, e);
    var payload := BuildPayload(task, s);
    var body := Sign(signer.crypto, signer.key, payload);
    assert ContextMatches(r, body) by { ContextSurvives(signer, r, env, identity, ids, now, s); }
    assert SignatureAccepted(signer.crypto, r, body) <==> r.expectedSigner == Some(signer.key) by {
      if r.expectedSigner.Some? {
        SignVerifies(signer.crypto, signer.key, r.expectedSigner.value, payload);
      }
    }
    PackageBinding(signer, task, e);
    if Oversized(signer, e) || Deliverable(signer, e) {
      PayloadVerdict(signer, task, e);
    }
  }

  /** What the package itself says once its context, signature and artifacts are accepted. */
  lemma PayloadVerdict(signer: Signer, task: Task, e: Execution)
    requires !e.NullResult? && (Oversized(signer, e) || Deliverable(signer, e))
    ensures var p := BuildPayload(task, Settle(signer, e));
            Expected(signer, e) ==
            if p.schemaValid == Some(false) then Verdict(Unverified, Some("RESULT_SCHEMA_INVALID"))
            else if p.status == Ok then Verdict(Succeeded, None)
            else Verdict(CallerStatus.Failed, Some(if Given(p.errorCode) then p.errorCode.value else "EXEC_UNKNOWN"))
  {
  }

  /** Without descriptors the caller verifies the signed package against the inline bytes, channel or not. */
  lemma InlineReceipt(crypto: Crypto, r: Record, done: Task, messageId: Id, channel: bool, downloads: nat -> DownloadAnswer)
    requires done.resultPackage.Some?
    ensures Receive(crypto, r, ResultEnvelopeFor(done, messageId, None), channel, downloads)
         == ApplyResultPackage(crypto, r, done.resultPackage.value, InlineAll(done.executionArtifacts))
  {
    assert ReceivedAttachments(crypto, ResultEnvelopeFor(done, messageId, None), channel, downloads) == InlineAll(done.executionArtifacts);
  }

  /** The verdict on a finished task whose package arrives with its own inline attachments. */
  lemma {:induction false} FinishedVerdict(signer: Signer, r: Record, env: TaskEnvelope, identity: Identity, ids: FreshIds, now: int, e: Execution)
    requires IgnoresSignature(signer.crypto) && Dispatched(r, env, identity)
    ensures var done := Executed(signer, env, identity, ids, now, e);
            VerdictOf(ApplyResultPackage(signer.crypto, r, done.resultPackage.value, InlineAll(done.executionArtifacts)))
            == if r.expectedSigner == Some(signer.key) then Expected(signer, e) else Verdict(Unverified, Some("RESULT_SIGNATURE_INVALID"))
  {
    var e' := if e.NullResult? then RuntimeFailure() else e;
    SettledVerdict(signer, r, env, identity, ids, now, e');
    assert Executed(signer, env, identity, ids, now, e) == FinalizeTask(signer, CreateTask(env, identity, ids, now), e').value;
    assert MaterializeAll(signer.crypto, []) == [];
  }

  /**
   Inline delivery, end to end and for every execution: the caller's verdict is the one the
   execution deserves when it pinned the responder's key, and a signature refusal otherwise.
   */
  lemma {:induction false} InlineDelivery(signer: Signer, r: Record, env: TaskEnvelope, identity: Identity, ids: FreshIds, now: int, e: Execution,
                       messageId: Id, channel: bool, downloads: nat -> DownloadAnswer)
    requires IgnoresSignature(signer.crypto) && Dispatched(r, env, identity)
    ensures var sent := ResultEnvelopeFor(Executed(signer, env, identity, ids, now, e), messageId, None);
            VerdictOf(Receive(signer.crypto, r, sent, channel, downloads))
            == if r.expectedSigner == Some(signer.key) then Expected(signer, e) else Verdict(Unverified, Some("RESULT_SIGNATURE_INVALID"))
  {
    InlineReceipt(signer.crypto, r, Executed(signer, env, identity, ids, now, e), messageId, channel, downloads);
    FinishedVerdict(signer, r, env, identity, ids, now, e);
  }

  // --------------------------------------------------------------------- what is delivered

  /** A declared artifact is the executor's own: its bytes weighed and hashed, under its name and type if it gave any. */
  predicate DeclaresRaw(crypto: Crypto, d: Descriptor, raw: RawArtifact) {
    && d.byteSize == Some(|Content(raw.content)|) && d.sha256 == Some(crypto.digest(Content(raw.content)))
    && d.name.Some? && d.name.value != "" && d.mediaType.Some? && d.artifactId.Some?
    && (Given(raw.name) ==> d.name == raw.name) && (Given(raw.mediaType) ==> d.mediaType == raw.mediaType)
    && (Given(raw.artifactId) ==> d.artifactId == raw.artifactId)
  }

  /** The package says what the executor returned: its output, and one declaration for each of its artifacts, in order. */
  ghost predicate Delivers(crypto: Crypto, body: ResultPackage, e: Execution) {
    && e.Reported? && e.status == Ok
    && body.status == Ok && body.output == e.output && body.errorCode == None
    && body.schemaValid == Some(e.schemaValid != Some(false))
    && |body.artifacts| == |e.artifacts|
    && forall k :: 0 <= k < |e.artifacts| ==> DeclaresRaw(crypto, body.artifacts[k], e.artifacts[k])
  }

  /** An ok execution that is not oversized comes out as returned; whatever else is executed, the package is an error without output or artifacts. */
  lemma {:induction false} PackageSaysWhatWasReturned(signer: Signer, task: Task, e: Execution)
    ensures var body := FinishTask(signer, task, e).resultPackage.value;
            if !Oversized(signer, e) && e.Reported? && e.status == Ok then Delivers(signer.crypto, body, e)
            else body.status == Error && body.output == None && body.artifacts == [] && body.errorCode.Some?
  {
    if !Oversized(signer, e) && e.Reported? && e.status == Ok {
      OkIsDelivered(signer, task, e);
    } else {
      assert MaterializeAll(signer.crypto, []) == [];
    }
  }

  lemma OkIsDelivered(signer: Signer, task: Task, e: Execution)
    requires !Oversized(signer, e) && e.Reported? && e.status == Ok
    ensures Delivers(signer.crypto, FinishTask(signer, task, e).resultPackage.value, e)
  {
    var body := FinishTask(signer, task, e).resultPackage.value;
    assert body.artifacts == DeclaredAll(MaterializeAll(signer.crypto, e.artifacts));
    forall k | 0 <= k < |e.artifacts| ensures DeclaresRaw(signer.crypto, body.artifacts[k], e.artifacts[k]) {
      assert body.artifacts[k] == Declared(Materialize(signer.crypto, e.artifacts[k], k + 1));
    }
  }

  /**
   Over either channel, and however the platform behaves: a request that ends SUCCEEDED holds a
   package that says what the executor returned, output and artifacts.
   */
  lemma {:induction false} SucceededHoldsTheOutput(signer: Signer, r: Record, env: TaskEnvelope, identity: Identity, ids: FreshIds, now: int, e: Execution,
                                messageId: Id, sender: bool, uploads: nat -> UploadAnswer, receiver: bool, downloads: nat -> DownloadAnswer)
    requires identity.hotlineIds != []
    ensures var sent := SentOver(Executed(signer, env, identity, ids, now, e), messageId, sender, uploads);
            var got := Receive(signer.crypto, r, sent, receiver, downloads);
            got.resultPackage.Some? && (got.status == Succeeded ==> Delivers(signer.crypto, got.resultPackage.value, e))
  {
    PackageSaysWhatWasReturned(signer, CreateTask(env, identity, ids, now), e);
    var done := Executed(signer, env, identity, ids, now, e);
    assert ExtractResult(SentOver(done, messageId, sender, uploads)).resultPackage == done.resultPackage;
  }

  /** The result goes back to whoever dispatched the request, and names it. */
  lemma ResultGoesBack(signer: Signer, r: Record, identity: Identity, ids: FreshIds, now: int, e: Execution,
                       messageId: Id, from: Option<Id>, to: Option<Id>, priority: Option<int>,
                       resultId: Id, sender: bool, uploads: nat -> UploadAnswer)
    requires identity.hotlineIds != [] && r.requestId != ""
    ensures var env := BuildDispatchEnvelope(r, messageId, from, to, priority);
            var sent := SentOver(Executed(signer, env, identity, ids, now, e), resultId, sender, uploads);
            && sent.messageId == resultId && sent.requestId == Some(r.requestId)
            && sent.to == (if from.Some? && from.value != "" then from.value else "caller-controller")
            && sent.resultPackage.Some? && sent.resultPackage.value.requestId == r.requestId
            && sent.bodyText == PackageJson(sent.resultPackage.value)
  {
    FinishedPackage(signer, CreateTask(BuildDispatchEnvelope(r, messageId, from, to, priority), identity, ids, now), e);
  }

  function Blob(name: string, bytes: seq<Byte>): RawArtifact {
    RawArtifact(None, Some(name), None, Buffer(bytes))
  }

  lemma TwoWeigh(artifacts: seq<Artifact>)
    requires |artifacts| == 2
    ensures TotalBytes(artifacts) == artifacts[0].byteSize + artifacts[1].byteSize
  {
    assert artifacts[..1][..0] == [];
    assert TotalBytes(artifacts[..1]) == artifacts[0].byteSize;
  }

  /** An ok result with two different artifacts of one name: small enough, valid, signed, sent intact, and refused. */
  lemma SameNameIsRefused(signer: Signer, r: Record, env: TaskEnvelope, identity: Identity, ids: FreshIds, now: int,
                          messageId: Id, channel: bool, downloads: nat -> DownloadAnswer)
    requires IgnoresSignature(signer.crypto) && Dispatched(r, env, identity)
    requires r.expectedSigner == Some(signer.key) && signer.maxAttachmentBytes >= 1
    ensures var e := Reported(Ok, None, None, [Blob("report", []), Blob("report", [0])], Some(true));
            var sent := ResultEnvelopeFor(Executed(signer, env, identity, ids, now, e), messageId, None);
            VerdictOf(Receive(signer.crypto, r, sent, channel, downloads)) == Verdict(Unverified, Some("RESULT_ARTIFACT_INVALID"))
  {
    var e := Reported(Ok, None, None, [Blob("report", []), Blob("report", [0])], Some(true));
    var artifacts := Materials(signer.crypto, e);
    TwoWeigh(artifacts);
    assert artifacts[0].byteSize == 0 && artifacts[1].byteSize == 1 && artifacts[0].name == artifacts[1].name;
    InlineDelivery(signer, r, env, identity, ids, now, e, messageId, channel, downloads);
  }

  /** An error result that carries an artifact loses its own code: the caller refuses it as badly attached. */
  lemma ErrorWithArtifactIsRefused(signer: Signer, r: Record, env: TaskEnvelope, identity: Identity, ids: FreshIds, now: int,
                                   messageId: Id, channel: bool, downloads: nat -> DownloadAnswer)
    requires IgnoresSignature(signer.crypto) && Dispatched(r, env, identity)
    requires r.expectedSigner == Some(signer.key) && signer.maxAttachmentBytes >= 0
    ensures var e := Reported(Error, None, Some("DISK_FULL"), [Blob("log", [])], Some(true));
            var sent := ResultEnvelopeFor(Executed(signer, env, identity, ids, now, e), messageId, None);
            VerdictOf(Receive(signer.crypto, r, sent, channel, downloads)) == Verdict(Unverified, Some("RESULT_ARTIFACT_INVALID"))
  {
    var e := Reported(Error, None, Some("DISK_FULL"), [Blob("log", [])], Some(true));
    var artifacts := Materials(signer.crypto, e);
    assert artifacts[..0] == [] && TotalBytes(artifacts) == 0;
    InlineDelivery(signer, r, env, identity, ids, now, e, messageId, channel, downloads);
  }

  // ------------------------------------------------------------- over the artifact channel

  /** The envelope after an upload attempt: descriptors if all of it was committed, inline bytes otherwise. */
  function SentOver(done: Task, messageId: Id, channel: bool, uploads: nat -> UploadAnswer): ResultEnvelope
    requires done.resultPackage.Some?
  {
    ResultEnvelopeFor(done, messageId, DescriptorsToSend(done.executionArtifacts, channel, uploads))
  }

  /** A platform that keeps what it was given: media types echoed, the uploaded bytes served under their checksum. */
  ghost predicate Faithful(crypto: Crypto, artifacts: seq<Artifact>, uploads: nat -> UploadAnswer, downloads: nat -> DownloadAnswer) {
    forall i: nat :: i < |artifacts| ==>
      && uploads(i).Committed? && uploads(i).mediaType == Some(artifacts[i].mediaType)
      && PassesGate(crypto, downloads(i)) && downloads(i).bytes == Decode(artifacts[i].contentBase64)
  }

  lemma MaterialsCanonical(crypto: Crypto, e: Execution, a: Artifact)
    requires a in Materials(crypto, e)
    ensures Canonical(a)
  {
  }

  /** A finished task holds canonical artifacts, and an ok package declares all of them. */
  lemma FinishedArtifacts(signer: Signer, task: Task, e: Execution)
    ensures Presentable(FinishTask(signer, task, e))
  {
    var e' := if e.NullResult? then RuntimeFailure() else e;
    var s := Settle(signer, e');
    assert FinishTask(signer, task, e).executionArtifacts == s.artifacts;
    forall a | a in s.artifacts ensures Canonical(a) {
      MaterialsCanonical(signer.crypto, e', a);
    }
  }

  /** Bytes that went through a faithful platform arrive as the very attachments inline delivery would have carried. */
  lemma FaithfulChannel(crypto: Crypto, artifacts: seq<Artifact>, uploads: nat -> UploadAnswer, downloads: nat -> DownloadAnswer)
    requires Faithful(crypto, artifacts, uploads, downloads)
    requires forall a :: a in artifacts ==> Canonical(a)
    ensures Resolved(crypto, Uploaded(artifacts, uploads), downloads) == InlineAll(artifacts)
  {
    CompleteUpload(artifacts, uploads);
    var descriptors := Uploaded(artifacts, uploads);
    ResolvedAll(crypto, descriptors, downloads);
    forall i: nat | i < |artifacts|
      ensures Resolved(crypto, descriptors, downloads)[i] == InlineAll(artifacts)[i]
    {
      assert artifacts[i] in artifacts && Canonical(artifacts[i]);
    }
  }

  /** With descriptors it verifies the package against what passed the gate, and nothing inline. */
  lemma {:induction false} ChannelReceipt(crypto: Crypto, r: Record, done: Task, messageId: Id, uploads: nat -> UploadAnswer, receiver: bool, downloads: nat -> DownloadAnswer)
    requires done.resultPackage.Some? && SentOver(done, messageId, true, uploads).descriptors.Some?
    ensures Receive(crypto, r, SentOver(done, messageId, true, uploads), receiver, downloads)
         == ApplyResultPackage(crypto, r, done.resultPackage.value,
                               if receiver then Resolved(crypto, Uploaded(done.executionArtifacts, uploads), downloads) else [])
  {
    CompleteUpload(done.executionArtifacts, uploads);
    var sent := SentOver(done, messageId, true, uploads);
    assert ReceivedAttachments(crypto, sent, receiver, downloads)
        == if receiver then Resolved(crypto, Uploaded(done.executionArtifacts, uploads), downloads) else [];
  }

  /** A refused upload, or a platform that is faithful throughout, changes nothing about the verdict. */
  lemma {:induction false} ChannelDelivery(signer: Signer, r: Record, env: TaskEnvelope, identity: Identity, ids: FreshIds, now: int, e: Execution,
                        messageId: Id, sender: bool, uploads: nat -> UploadAnswer, receiver: bool, downloads: nat -> DownloadAnswer)
    requires IgnoresSignature(signer.crypto) && Dispatched(r, env, identity)
    requires var done := Executed(signer, env, identity, ids, now, e);
             SentOver(done, messageId, sender, uploads).descriptors.Some? ==>
               receiver && Faithful(signer.crypto, done.executionArtifacts, uploads, downloads)
    ensures var sent := SentOver(Executed(signer, env, identity, ids, now, e), messageId, sender, uploads);
            VerdictOf(Receive(signer.crypto, r, sent, receiver, downloads))
            == if r.expectedSigner == Some(signer.key) then Expected(signer, e) else Verdict(Unverified, Some("RESULT_SIGNATURE_INVALID"))
  {
    var done := Executed(signer, env, identity, ids, now, e);
    FinishedVerdict(signer, r, env, identity, ids, now, e);
    if SentOver(done, messageId, sender, uploads).descriptors.Some? {
      FinishedArtifacts(signer, CreateTask(env, identity, ids, now), e);
      ChannelReceipt(signer.crypto, r, done, messageId, uploads, receiver, downloads);
      FaithfulChannel(signer.crypto, done.executionArtifacts, uploads, downloads);
    } else {
      InlineReceipt(signer.crypto, r, done, messageId, receiver, downloads);
    }
  }

  /** Some artifact with a name of its own could not be downloaded: no channel, a refusal, or bytes that fail their checksum. */
  ghost predicate LosesOne(crypto: Crypto, artifacts: seq<Artifact>, receiver: bool, downloads: nat -> DownloadAnswer) {
    exists k: nat :: k < |artifacts| && Unique(artifacts, k) && !(receiver && PassesGate(crypto, downloads(k)))
  }

  predicate Unique(artifacts: seq<Artifact>, k: nat)
    requires k < |artifacts|
  {
    forall i :: 0 <= i < |artifacts| && i != k ==> artifacts[i].name != artifacts[k].name
  }

  /** What a task must hold for its ok package to stand for its artifacts; `FinishedArtifacts` is where it comes from. */
  ghost predicate Presentable(done: Task) {
    && done.resultPackage.Some?
    && (forall a :: a in done.executionArtifacts ==> Canonical(a))
    && (done.resultPackage.value.status == Ok ==> done.resultPackage.value.artifacts == DeclaredAll(done.executionArtifacts))
  }

  /** However the platform misbehaves, losing one artifact rules success out. */
  lemma LossRulesOutSuccess(crypto: Crypto, r: Record, done: Task,
                            messageId: Id, uploads: nat -> UploadAnswer, receiver: bool, downloads: nat -> DownloadAnswer)
    requires Presentable(done) && SentOver(done, messageId, true, uploads).descriptors.Some?
    requires LosesOne(crypto, done.executionArtifacts, receiver, downloads)
    ensures Receive(crypto, r, SentOver(done, messageId, true, uploads), receiver, downloads).status != Succeeded
  {
    ChannelReceipt(crypto, r, done, messageId, uploads, receiver, downloads);
    var body := done.resultPackage.value;
    if body.status == Ok {
      LostArtifactUnbound(crypto, done.executionArtifacts, uploads, receiver, downloads, body);
    }
  }

  lemma LostArtifactUnbound(crypto: Crypto, artifacts: seq<Artifact>, uploads: nat -> UploadAnswer,
                            receiver: bool, downloads: nat -> DownloadAnswer, body: ResultPackage)
    requires NotUploaded(artifacts, uploads) == [] && LosesOne(crypto, artifacts, receiver, downloads)
    requires body.artifacts == DeclaredAll(artifacts) && forall a :: a in artifacts ==> a.name != ""
    ensures !ArtifactsBound(crypto, body, if receiver then Resolved(crypto, Uploaded(artifacts, uploads), downloads) else [])
  {
    var k: nat :| k < |artifacts| && Unique(artifacts, k) && !(receiver && PassesGate(crypto, downloads(k)));
    var attachments := if receiver then Resolved(crypto, Uploaded(artifacts, uploads), downloads) else [];
    forall a | a in attachments ensures a.name != Some(artifacts[k].name) {
      NoOtherOfThatName(crypto, artifacts, uploads, downloads, k, a);
    }
    assert body.artifacts[k] == Declared(artifacts[k]);
    assert !Bound(crypto, body.artifacts[k], attachments);
  }

  lemma {:induction false} NoOtherOfThatName(crypto: Crypto, artifacts: seq<Artifact>, uploads: nat -> UploadAnswer, downloads: nat -> DownloadAnswer,
                          k: nat, a: Attachment)
    requires NotUploaded(artifacts, uploads) == [] && forall x :: x in artifacts ==> x.name != ""
    requires k < |artifacts| && Unique(artifacts, k) && !PassesGate(crypto, downloads(k))
    requires a in Resolved(crypto, Uploaded(artifacts, uploads), downloads)
    ensures a.name != Some(artifacts[k].name)
  {
    CompleteUpload(artifacts, uploads);
    var descriptors := Uploaded(artifacts, uploads);
    var i := ResolvedIsGated(crypto, descriptors, downloads, a);
    assert artifacts[i] in artifacts && i != k;
    assert descriptors[i].name == Some(artifacts[i].name);
  }
}
