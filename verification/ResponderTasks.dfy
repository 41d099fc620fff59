/** Task records and the envelope they are created from. */
module ResponderTasks {
  import opened Collections
  import opened Results

  datatype TaskStatus = Queued | Running | Completed | Failed

  /** An artifact with its bytes, size and digest settled. */
  datatype Artifact = Artifact(
    artifactId: Id,
    name: string,
    mediaType: string,
    byteSize: nat,
    sha256: Digest,
    contentBase64: string)

  datatype Task = Task(
    taskId: Id,
    requestId: Id,
    attemptId: Id,
    responderId: Id,
    hotlineId: Id,
    displayCode: Option<string>,
    priority: int,
    enqueuedAt: int,
    replyTo: Id,
    status: TaskStatus,
    recoverability: Option<string>,
    executionArtifacts: seq<Artifact>,
    resultPackage: Option<ResultPackage>,
    reconciled: bool)

  datatype Identity = Identity(responderId: Id, hotlineIds: seq<Id>)

  datatype TaskEnvelope = TaskEnvelope(
    messageId: Id,
    taskId: Option<Id>,
    attemptId: Option<Id>,
    from: Option<Id>,
    to: Option<Id>,
    requestId: Option<Id>,
    responderId: Option<Id>,
    hotlineId: Option<Id>,
    displayCode: Option<string>,
    priority: int)

  /** Identifiers drawn from the fresh-name supply for one new record. */
  datatype FreshIds = FreshIds(taskId: Id, requestId: Id, attemptId: Id)

  /** Envelopes addressed to another responder or another hotline are left in the queue. */
  predicate Addressed(env: TaskEnvelope, identity: Identity) {
    && (Given(env.responderId) ==> env.responderId.value == identity.responderId)
    && (Given(env.hotlineId) ==> env.hotlineId.value in identity.hotlineIds)
  }

  function TaskMessageId(env: TaskEnvelope): Id {
    env.messageId
  }

  /** A sender may name the task and the attempt as well as the request; what it leaves out is drawn fresh. A priority of zero reads as unset. */
  function CreateTask(env: TaskEnvelope, identity: Identity, ids: FreshIds, now: int): Task
    requires identity.hotlineIds != []
  {
    Task(
      if Given(env.taskId) then env.taskId.value else ids.taskId,
      if Given(env.requestId) then env.requestId.value else ids.requestId,
      if Given(env.attemptId) then env.attemptId.value else ids.attemptId,
      if Given(env.responderId) then env.responderId.value else identity.responderId,
      if Given(env.hotlineId) then env.hotlineId.value else identity.hotlineIds[0],
      env.displayCode,
      if env.priority != 0 then env.priority else 5,
      now,
      if Given(env.from) then env.from.value else "caller-controller",
      Queued,
      None,
      [],
      None,
      false)
  }
}
