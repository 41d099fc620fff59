/** How the responder turns whatever the executor returned into a signed result package. */
module ResultBuilder {
  import opened Base64
  import opened Collections
  import opened ResponderTasks
  import opened Results

  datatype RawContent = Buffer(bytes: seq<Byte>) | Base64Text(text: string) | Utf8Text(bytes: seq<Byte>) | NoContent

  datatype RawArtifact = RawArtifact(
    artifactId: Option<Id>,
    name: Option<string>,
    mediaType: Option<string>,
    content: RawContent)

  /** Everything an executor may hand back; only the last kind is an object with fields. */
  datatype Execution =
    | NullResult
    | UndefinedResult
    | PrimitiveResult
    | Reported(
        status: StatusWord,
        output: Option<string>,
        errorCode: Option<string>,
        artifacts: seq<RawArtifact>,
        schemaValid: Option<bool>)

  datatype Signer = Signer(crypto: Crypto, key: Key, maxAttachmentBytes: int)

  // ---------------------------------------------------------------------- artifacts

  function Digits(n: nat): string {
    if n < 10 then [('0' as int + n) as char] else Digits(n / 10) + Digits(n % 10)
  }

  function Content(c: RawContent): seq<Byte> {
    match c
    case Buffer(bytes) => bytes
    case Base64Text(text) => Decode(text)
    case Utf8Text(bytes) => bytes
    case NoContent => []
  }

  /** An artifact whose fields all follow from its bytes. */
  predicate Canonical(a: Artifact) {
    a.name != "" && a.contentBase64 == Encode(Decode(a.contentBase64)) && a.byteSize == |Decode(a.contentBase64)|
  }

  function Materialize(crypto: Crypto, a: RawArtifact, position: nat): (r: Artifact)
    ensures r.mediaType != "" && Canonical(r)
    ensures Decode(r.contentBase64) == Content(a.content) && r.sha256 == crypto.digest(Content(a.content))
  {
    var bytes := Content(a.content);
    DecodeEncode(bytes);
    Artifact(
      if Given(a.artifactId) then a.artifactId.value else "art_" + Digits(position),
      if Given(a.name) then a.name.value else "artifact-" + Digits(position) + ".bin",
      if Given(a.mediaType) then a.mediaType.value else "application/octet-stream",
      |bytes|,
      crypto.digest(bytes),
      Encode(bytes))
  }

  /** The number a numeral stands for. */
  function NumberOf(digits: string): int {
    if digits == "" then 0 else NumberOf(digits[..|digits| - 1]) * 10 + (digits[|digits| - 1] as int - '0' as int)
  }

  lemma {:induction false} NumeralsReadBack(n: nat)
    ensures NumberOf(Digits(n)) == n
    decreases n
  {
    if n < 10 {
      assert Digits(n)[..0] == "";
    } else {
      NumeralsReadBack(n / 10);
      assert Digits(n)[..|Digits(n)| - 1] == Digits(n / 10);
      assert Digits(n)[|Digits(n)| - 1] as int - '0' as int == n % 10 by {
        assert Digits(n % 10) == [('0' as int + n % 10) as char];
      }
    }
  }

  /** What the executor named keeps its name; what it did not name is told apart by its place. */
  lemma UnnamedStayApart(crypto: Crypto, a: RawArtifact, b: RawArtifact, i: nat, j: nat)
    requires i != j
    ensures a.name.Some? && a.name.value != "" ==> Materialize(crypto, a, i).name == a.name.value
    ensures a.mediaType.Some? && a.mediaType.value != "" ==> Materialize(crypto, a, i).mediaType == a.mediaType.value
    ensures a.artifactId.Some? && a.artifactId.value != "" ==> Materialize(crypto, a, i).artifactId == a.artifactId.value
    ensures !Given(a.name) && !Given(b.name) ==> Materialize(crypto, a, i).name != Materialize(crypto, b, j).name
    ensures !Given(a.artifactId) && !Given(b.artifactId) ==> Materialize(crypto, a, i).artifactId != Materialize(crypto, b, j).artifactId
  {
    NumeralsReadBack(i);
    NumeralsReadBack(j);
    if !Given(a.name) && !Given(b.name) {
      var x, y := Materialize(crypto, a, i).name, Materialize(crypto, b, j).name;
      assert x[9..|x| - 4] == Digits(i) && y[9..|y| - 4] == Digits(j);
    }
    if !Given(a.artifactId) && !Given(b.artifactId) {
      var x, y := Materialize(crypto, a, i).artifactId, Materialize(crypto, b, j).artifactId;
      assert x[4..] == Digits(i) && y[4..] == Digits(j);
    }
  }

  function MaterializeAll(crypto: Crypto, artifacts: seq<RawArtifact>): seq<Artifact> {
    seq(|artifacts|, i requires 0 <= i < |artifacts| => Materialize(crypto, artifacts[i], i + 1))
  }

  function TotalBytes(artifacts: seq<Artifact>): nat {
    if artifacts == [] then 0 else TotalBytes(artifacts[..|artifacts| - 1]) + artifacts[|artifacts| - 1].byteSize
  }

  /** What an execution carries, once materialised; anything but an object carries nothing. */
  function Materials(crypto: Crypto, e: Execution): seq<Artifact> {
    if e.Reported? then MaterializeAll(crypto, e.artifacts) else []
  }

  /** The package lists artifacts without their bytes. */
  function Declared(a: Artifact): Descriptor {
    Descriptor(Some(a.artifactId), Some(a.name), Some(a.mediaType), Some(a.byteSize), Some(a.sha256))
  }

  function DeclaredAll(artifacts: seq<Artifact>): seq<Descriptor> {
    seq(|artifacts|, i requires 0 <= i < |artifacts| => Declared(artifacts[i]))
  }

  // ------------------------------------------------------------------------ payloads

  function BasePayload(task: Task): ResultPackage {
    ResultPackage(task.requestId, Some("0.1.0"), Some(task.responderId), Some(task.hotlineId), task.displayCode,
                  Unrecognised, None, [], None, None, None, None)
  }

  function ErrorPayload(task: Task, code: string, schemaValid: bool): ResultPackage {
    BasePayload(task).(status := Error, errorCode := Some(code), schemaValid := Some(schemaValid))
  }

  /** An execution after its artifacts were materialised and weighed. */
  datatype Settled = Settled(execution: Execution, artifacts: seq<Artifact>)

  function Settle(signer: Signer, e: Execution): Settled {
    var artifacts := Materials(signer.crypto, e);
    if TotalBytes(artifacts) <= signer.maxAttachmentBytes then Settled(e, artifacts)
    else Settled(Reported(Error, None, Some("RESULT_ARTIFACT_TOO_LARGE"), [], Some(true)), [])
  }

  function BuildPayload(task: Task, s: Settled): ResultPackage {
    var e := s.execution;
    if !e.Reported? then ErrorPayload(task, "EXECUTOR_INVALID_RESULT", true)
    else match e.status
      case Error =>
        ErrorPayload(task, if Given(e.errorCode) then e.errorCode.value else "EXECUTOR_RUNTIME_ERROR", e.schemaValid != Some(false))
      case Unrecognised =>
        ErrorPayload(task, "EXECUTOR_INVALID_RESULT", true)
      case Ok =>
        BasePayload(task).(
          status := Ok,
          output := e.output,
          artifacts := DeclaredAll(s.artifacts),
          schemaValid := Some(e.schemaValid != Some(false)))
  }

  /** Finalizing throws on `null` before it has changed anything: reading a field of it fails. */
  function FinalizeTask(signer: Signer, task: Task, e: Execution): Option<Task> {
    if e.NullResult? then None else
      var s := Settle(signer, e);
      Some(task.(
        status := Completed,
        executionArtifacts := s.artifacts,
        resultPackage := Some(Sign(signer.crypto, signer.key, BuildPayload(task, s)))))
  }

  function RuntimeFailure(): Execution {
    Reported(Error, None, Some("EXECUTOR_RUNTIME_ERROR"), [], Some(true))
  }

  /** The run loop catches the throw and finalizes the task as a runtime failure instead. */
  function FinishTask(signer: Signer, task: Task, e: Execution): (r: Task)
    ensures r.resultPackage.Some? && r.status == Completed
    ensures r == task.(status := r.status, executionArtifacts := r.executionArtifacts, resultPackage := r.resultPackage)
  {
    match FinalizeTask(signer, task, e)
    case Some(done) => done
    case None => FinalizeTask(signer, task, RuntimeFailure()).value
  }

  /** Whatever was executed, the package is the responder's own and names the task's request. */
  lemma FinishedPackage(signer: Signer, task: Task, e: Execution)
    ensures FinishTask(signer, task, e).resultPackage.value.requestId == task.requestId
    ensures IgnoresSignature(signer.crypto) ==> SignatureVerifies(signer.crypto, signer.key, FinishTask(signer, task, e).resultPackage.value)
  {
    var e' := if e.NullResult? then RuntimeFailure() else e;
    var payload := BuildPayload(task, Settle(signer, e'));
    assert FinishTask(signer, task, e).resultPackage == Some(Sign(signer.crypto, signer.key, payload));
    if IgnoresSignature(signer.crypto) {
      SignVerifies(signer.crypto, signer.key, signer.key, payload);
    }
  }

  /** A task refused before it ran: token or guardrail rejection. */
  function RejectTask(signer: Signer, task: Task, code: string): Task {
    task.(status := Completed, resultPackage := Some(Sign(signer.crypto, signer.key, ErrorPayload(task, code, true))))
  }

  // ------------------------------------------------------------------------ envelopes

  function Inline(a: Artifact): Attachment {
    Attachment(Some(a.name), Some(a.mediaType), Some(a.contentBase64), Some(a.byteSize))
  }

  function InlineAll(artifacts: seq<Artifact>): seq<Attachment> {
    seq(|artifacts|, i requires 0 <= i < |artifacts| => Inline(artifacts[i]))
  }

  /** The result envelope; `descriptors` is present when every artifact went through the channel. */
  function ResultEnvelopeFor(task: Task, messageId: Id, descriptors: Option<seq<ChannelDescriptor>>): ResultEnvelope
    requires task.resultPackage.Some?
  {
    ResultEnvelope(
      messageId,
      task.replyTo,
      Some(task.requestId),
      PackageJson(task.resultPackage.value),
      Some(if descriptors.Some? then [] else InlineAll(task.executionArtifacts)),
      descriptors,
      task.resultPackage,
      None)
  }
}
