/**
 Caller, hub and responder as one system, over every run: results are settled, sent, replayed and
 redelivered any number of times, over either artifact channel and whatever the platform answers;
 anyone else may put envelopes into the caller's queue or post packages, as long as they cannot
 sign with the responder's key; and the caller's record takes any other step in between.
 */
module ResultExchange {
  import opened ArtifactChannel
  import opened Base64
  import opened CallerRequests
  import opened Collections
  import opened EndToEnd
  import opened ResponderTasks
  import opened ResultBuilder
  import opened Results
  import CallerLifecycle

  /** `issued` is every task the responder ever settled; `evidence` the attachments the record's package was judged with. */
  datatype System = System(record: Record, issued: seq<Task>, hub: seq<ResultEnvelope>, evidence: seq<Attachment>)

  /** `Late` is the result route applying a body it waited for, whatever became of the record meanwhile. */
  datatype Event =
    | Finish(env: TaskEnvelope, ids: FreshIds, now: int, e: Execution)
    | Refuse(env: TaskEnvelope, ids: FreshIds, now: int, code: string)
    | Send(i: nat, replyTo: Id, messageId: Id, channel: bool, uploads: nat -> UploadAnswer)
    | Inject(message: ResultEnvelope)
    | Take(k: nat, channel: bool, downloads: nat -> DownloadAnswer)
    | Ack(k: nat)
    | Late(body: ResultPackage, attachments: seq<Attachment>)
    | Elsewhere(step: CallerLifecycle.Step)

  datatype Parties = Parties(signer: Signer, identity: Identity, config: CallerConfig)

  /** An ideal signature under the responder's key was made by the responder: it is the one on some package it issued. */
  predicate Unforged(signer: Signer, issued: seq<Task>, body: ResultPackage) {
    body.signature.Some? && body.signature.value.key == signer.key ==> IssuedSignature(issued, body.signature)
  }

  predicate IssuedSignature(issued: seq<Task>, signature: Option<Signature>) {
    exists t :: t in issued && t.resultPackage.Some? && t.resultPackage.value.signature == signature
  }

  predicate CarriesUnforged(signer: Signer, issued: seq<Task>, env: ResultEnvelope) {
    var body := ExtractResult(env).resultPackage;
    body.Some? ==> Unforged(signer, issued, body.value)
  }

  /** A poll does not remove: the same envelope can be taken again and again. Packages for other requests pass this record by. */
  function TakeEnvelope(crypto: Crypto, s: System, env: ResultEnvelope, channel: bool, downloads: nat -> DownloadAnswer): System {
    var body := ExtractResult(env).resultPackage;
    if Terminal(s.record.status) || body.None? || body.value.requestId != s.record.requestId then s else
      s.(record := Receive(crypto, s.record, env, channel, downloads), evidence := ReceivedAttachments(crypto, env, channel, downloads))
  }

  function OtherStep(p: Parties, s: System, step: CallerLifecycle.Step): System {
    var after := s.(record := CallerLifecycle.Apply(p.signer.crypto, p.config, s.record, step));
    if !step.action.DeliverResult? then after
    else if Terminal(s.record.status) || !Unforged(p.signer, s.issued, step.action.body) then s
    else after.(evidence := step.action.attachments)
  }

  function Next(p: Parties, s: System, event: Event): System
    requires p.identity.hotlineIds != []
  {
    match event
    case Finish(env, ids, now, e) => s.(issued := s.issued + [FinishTask(p.signer, CreateTask(env, p.identity, ids, now), e)])
    case Refuse(env, ids, now, code) => s.(issued := s.issued + [RejectTask(p.signer, CreateTask(env, p.identity, ids, now), code)])
    case Send(i, replyTo, messageId, channel, uploads) =>
      if i < |s.issued| && s.issued[i].resultPackage.Some?
      then s.(hub := s.hub + [SentOver(s.issued[i].(replyTo := replyTo), messageId, channel, uploads)])
      else s
    case Inject(env) => if CarriesUnforged(p.signer, s.issued, env) then s.(hub := s.hub + [env]) else s
    case Take(k, channel, downloads) =>
      if k < |s.hub| then TakeEnvelope(p.signer.crypto, s, s.hub[k], channel, downloads) else s
    case Ack(k) => if k < |s.hub| then s.(hub := s.hub[..k] + s.hub[k + 1..]) else s
    case Late(body, attachments) =>
      if Unforged(p.signer, s.issued, body)
      then s.(record := ApplyResultPackage(p.signer.crypto, s.record, body, attachments), evidence := attachments)
      else s
    case Elsewhere(step) => OtherStep(p, s, step)
  }

  function Run(p: Parties, s: System, events: seq<Event>): System
    requires p.identity.hotlineIds != []
    decreases |events|
  {
    if events == [] then s else Next(p, Run(p, s, events[..|events| - 1]), events[|events| - 1])
  }

  // ------------------------------------------------------------------- what the responder signs

  /** The digest a task records for an artifact is the digest of the artifact's bytes. */
  ghost predicate Digested(crypto: Crypto, done: Task) {
    forall a :: a in done.executionArtifacts ==> a.sha256 == crypto.digest(Decode(a.contentBase64))
  }

  ghost predicate Genuine(signer: Signer, done: Task) {
    Presentable(done) && SignatureVerifies(signer.crypto, signer.key, done.resultPackage.value) && Digested(signer.crypto, done)
  }

  lemma MaterialsDigested(crypto: Crypto, e: Execution, a: Artifact)
    requires a in Materials(crypto, e)
    ensures a.sha256 == crypto.digest(Decode(a.contentBase64))
  {
  }

  lemma FinishedIsGenuine(signer: Signer, task: Task, e: Execution)
    requires IgnoresSignature(signer.crypto)
    ensures Genuine(signer, FinishTask(signer, task, e))
  {
    var e' := if e.NullResult? then RuntimeFailure() else e;
    var s := Settle(signer, e');
    var done := FinishTask(signer, task, e);
    FinishedArtifacts(signer, task, e);
    FinishedPackage(signer, task, e);
    forall a | a in done.executionArtifacts ensures a.sha256 == signer.crypto.digest(Decode(a.contentBase64)) {
      assert a in s.artifacts;
      MaterialsDigested(signer.crypto, e', a);
    }
  }

  lemma RefusedIsGenuine(signer: Signer, task: Task, code: string)
    requires IgnoresSignature(signer.crypto) && task.executionArtifacts == []
    ensures Genuine(signer, RejectTask(signer, task, code))
  {
  }

  // ------------------------------------------------------------------------ the invariant

  /** What the record was judged on when it succeeded: everything the verifier asks for, unforged. */
  ghost predicate Judged(signer: Signer, s: System) {
    && s.record.resultPackage.Some?
    && var body := s.record.resultPackage.value;
    && body.requestId == s.record.requestId && body.status == Ok && body.schemaValid != Some(false)
    && SignatureAccepted(signer.crypto, s.record, body) && ArtifactsBound(signer.crypto, body, s.evidence)
    && Unforged(signer, s.issued, body)
  }

  /** The record has pinned the responder's key. */
  ghost predicate Honest(signer: Signer, s: System) {
    && s.record.expectedSigner == Some(signer.key)
    && (forall t :: t in s.issued ==> Genuine(signer, t))
    && (forall env :: env in s.hub ==> CarriesUnforged(signer, s.issued, env))
    && (s.record.status == Succeeded ==> Judged(signer, s))
  }

  lemma UnforgedStays(signer: Signer, issued: seq<Task>, t: Task, body: ResultPackage)
    requires Unforged(signer, issued, body)
    ensures Unforged(signer, issued + [t], body)
  {
    if IssuedSignature(issued, body.signature) {
      var x :| x in issued && x.resultPackage.Some? && x.resultPackage.value.signature == body.signature;
      assert x in issued + [t];
    }
  }

  lemma IssueKeepsHonest(signer: Signer, s: System, t: Task)
    requires Honest(signer, s) && Genuine(signer, t)
    ensures Honest(signer, s.(issued := s.issued + [t]))
  {
    forall env | env in s.hub ensures CarriesUnforged(signer, s.issued + [t], env) {
      var body := ExtractResult(env).resultPackage;
      if body.Some? {
        UnforgedStays(signer, s.issued, t, body.value);
      }
    }
    if s.record.status == Succeeded {
      UnforgedStays(signer, s.issued, t, s.record.resultPackage.value);
    }
  }

  lemma SendKeepsHonest(signer: Signer, s: System, t: Task, replyTo: Id, messageId: Id, channel: bool, uploads: nat -> UploadAnswer)
    requires Honest(signer, s) && t in s.issued
    ensures t.resultPackage.Some?
    ensures Honest(signer, s.(hub := s.hub + [SentOver(t.(replyTo := replyTo), messageId, channel, uploads)]))
  {
    var env := SentOver(t.(replyTo := replyTo), messageId, channel, uploads);
    assert ExtractResult(env).resultPackage == t.resultPackage && Genuine(signer, t);
    assert IssuedSignature(s.issued, t.resultPackage.value.signature);
  }

  lemma ApplyKeepsHonest(signer: Signer, s: System, body: ResultPackage, attachments: seq<Attachment>)
    requires Honest(signer, s) && Unforged(signer, s.issued, body)
    ensures Honest(signer, s.(record := ApplyResultPackage(signer.crypto, s.record, body, attachments), evidence := attachments))
  {
  }

  lemma TakeKeepsHonest(signer: Signer, s: System, k: nat, channel: bool, downloads: nat -> DownloadAnswer)
    requires Honest(signer, s) && k < |s.hub|
    ensures Honest(signer, TakeEnvelope(signer.crypto, s, s.hub[k], channel, downloads))
  {
    var env := s.hub[k];
    var body := ExtractResult(env).resultPackage;
    assert env in s.hub;
    if body.Some? {
      ApplyKeepsHonest(signer, s, body.value, ReceivedAttachments(signer.crypto, env, channel, downloads));
    }
  }

  /** Only a result makes a request succeed, and nothing takes a pinned signer off a record. */
  lemma OtherActions(p: Parties, r: Record, step: CallerLifecycle.Step)
    requires !step.action.DeliverResult? && r.expectedSigner.Some?
    ensures var r' := CallerLifecycle.Apply(p.signer.crypto, p.config, r, step);
            && r'.expectedSigner == r.expectedSigner && r'.requestId == r.requestId
            && r'.resultPackage == r.resultPackage && (r'.status == Succeeded <==> r.status == Succeeded)
  {
    match step.action
    case Evaluate => EvaluationExactlyWhen(r, p.config, step.now);
    case Dispatch =>
    case Acknowledge =>
    case SyncEvents(_) =>
    case DeliverUnreadable =>
    case Decide(_) =>
    case Prepare(_) =>
    case DraftContract =>
  }

  lemma AcceptanceUnmoved(crypto: Crypto, r: Record, r': Record, body: ResultPackage)
    requires r'.expectedSigner == r.expectedSigner
    ensures SignatureAccepted(crypto, r', body) == SignatureAccepted(crypto, r, body)
  {
  }

  lemma OtherStepKeepsHonest(p: Parties, s: System, step: CallerLifecycle.Step)
    requires Honest(p.signer, s)
    ensures Honest(p.signer, OtherStep(p, s, step))
  {
    if step.action.DeliverResult? {
      if !Terminal(s.record.status) && Unforged(p.signer, s.issued, step.action.body) {
        ApplyKeepsHonest(p.signer, s, step.action.body, step.action.attachments);
      }
    } else {
      OtherActions(p, s.record, step);
      if s.record.status == Succeeded {
        var r' := CallerLifecycle.Apply(p.signer.crypto, p.config, s.record, step);
        AcceptanceUnmoved(p.signer.crypto, s.record, r', s.record.resultPackage.value);
      }
    }
  }

  lemma EventKeepsHonest(p: Parties, s: System, event: Event)
    requires p.identity.hotlineIds != [] && IgnoresSignature(p.signer.crypto) && Honest(p.signer, s)
    ensures Honest(p.signer, Next(p, s, event))
  {
    match event
    case Finish(env, ids, now, e) =>
      var t := CreateTask(env, p.identity, ids, now);
      FinishedIsGenuine(p.signer, t, e);
      IssueKeepsHonest(p.signer, s, FinishTask(p.signer, t, e));
    case Refuse(env, ids, now, code) =>
      var t := CreateTask(env, p.identity, ids, now);
      RefusedIsGenuine(p.signer, t, code);
      IssueKeepsHonest(p.signer, s, RejectTask(p.signer, t, code));
    case Send(i, replyTo, messageId, channel, uploads) =>
      if i < |s.issued| {
        SendKeepsHonest(p.signer, s, s.issued[i], replyTo, messageId, channel, uploads);
      }
    case Inject(_) =>
    case Take(k, channel, downloads) =>
      if k < |s.hub| {
        TakeKeepsHonest(p.signer, s, k, channel, downloads);
      }
    case Ack(_) =>
    case Late(body, attachments) =>
      if Unforged(p.signer, s.issued, body) {
        ApplyKeepsHonest(p.signer, s, body, attachments);
      }
    case Elsewhere(step) => OtherStepKeepsHonest(p, s, step);
  }

  lemma {:induction false} StaysHonest(p: Parties, s: System, events: seq<Event>)
    requires p.identity.hotlineIds != [] && IgnoresSignature(p.signer.crypto) && Honest(p.signer, s)
    ensures Honest(p.signer, Run(p, s, events))
    decreases |events|
  {
    if events != [] {
      StaysHonest(p, s, events[..|events| - 1]);
      EventKeepsHonest(p, Run(p, s, events[..|events| - 1]), events[|events| - 1]);
    }
  }

  // ------------------------------------------------------------- who signed what succeeded

  predicate SignedByResponder(signer: Signer, issued: seq<Task>, body: ResultPackage) {
    SignatureVerifies(signer.crypto, signer.key, body) && IssuedSignature(issued, body.signature)
  }

  /** A fresh request that has pinned the responder's key. */
  ghost predicate Pinned(signer: Signer, r: Record) {
    r.expectedSigner == Some(signer.key) && r.status != Succeeded
  }

  /**
   Over every run of a record that has pinned the responder's key, whoever else sends or posts: it
   ends SUCCEEDED on a package the responder did not sign if and only if that package carries no
   signature at all and does not itself declare its signature invalid.
   */
  lemma {:induction false} UnsignedExactlyWhen(p: Parties, r: Record, events: seq<Event>)
    requires p.identity.hotlineIds != [] && IgnoresSignature(p.signer.crypto) && Pinned(p.signer, r)
    requires Run(p, System(r, [], [], []), events).record.status == Succeeded
    ensures var s := Run(p, System(r, [], [], []), events);
            s.record.resultPackage.Some? &&
            var body := s.record.resultPackage.value;
            && (!SignedByResponder(p.signer, s.issued, body) <==> body.signature.None? && body.signatureValid != Some(false))
            && (body.signature.None? ==> body.signatureValid != Some(false))
  {
    StaysHonest(p, System(r, [], [], []), events);
  }

  function Unsigned(requestId: Id): ResultPackage {
    ResultPackage(requestId, None, None, None, None, Ok, None, [], None, None, None, None)
  }

  function Carrying(body: ResultPackage): ResultEnvelope {
    ResultEnvelope("m", "caller", Some(body.requestId), PackageJson(body), None, None, Some(body), None)
  }

  /** It does happen: a record with a pinned key succeeds on an unsigned package anyone put into its queue. */
  lemma UnsignedSucceeds(p: Parties, downloads: nat -> DownloadAnswer) returns (events: seq<Event>)
    requires p.identity.hotlineIds != []
    ensures var r := NewRecord("req", None, None, None, None, Some(p.signer.key), 120, None, 90, 300, 0);
            var s := Run(p, System(r, [], [], []), events);
            Pinned(p.signer, r) && s.record.status == Succeeded && s.issued == []
  {
    var r := NewRecord("req", None, None, None, None, Some(p.signer.key), 120, None, 90, 300, 0);
    var s0, env := System(r, [], [], []), Carrying(Unsigned("req"));
    events := [Inject(env), Take(0, false, downloads)];
    assert events[..1] == [Inject(env)] && events[..1][..0] == [];
    var s1 := Next(p, s0, Inject(env));
    assert Run(p, s0, events[..1]) == s1 && s1.hub == [env];
    assert ReceivedAttachments(p.signer.crypto, env, false, downloads) == [];
  }

  // ------------------------------------------------------------------ what a signature vouches for

  /** The k-th artifact of the task arrived: an attachment of its name, its size and its digest. */
  predicate Arrived(crypto: Crypto, a: Artifact, attachments: seq<Attachment>) {
    var i := FirstNamed(attachments, Some(a.name));
    && i < |attachments|
    && attachments[i].byteSize == Some(a.byteSize)
    && crypto.digest(AttachedBytes(attachments[i])) == crypto.digest(Decode(a.contentBase64))
  }

  ghost predicate CollisionFree(crypto: Crypto) {
    forall b, c :: crypto.digest(b) == crypto.digest(c) ==> b == c
  }

  /** The canonical form leaves nothing out but the signature. */
  ghost predicate CoversAll(crypto: Crypto) {
    forall p: ResultPackage, q: ResultPackage :: crypto.signingBytes(p) == crypto.signingBytes(q) ==> p.(signature := None) == q.(signature := None)
  }

  /** A package under a signature the responder issued is the package it was issued for. */
  lemma SignatureNamesPackage(signer: Signer, issued: seq<Task>, body: ResultPackage) returns (t: Task)
    requires CoversAll(signer.crypto) && SignedByResponder(signer, issued, body)
    requires forall t :: t in issued ==> Genuine(signer, t)
    ensures t in issued && t.resultPackage == Some(body)
  {
    t :| t in issued && t.resultPackage.Some? && t.resultPackage.value.signature == body.signature;
    assert Genuine(signer, t);
    var issuedBody := t.resultPackage.value;
    assert signer.crypto.signingBytes(issuedBody) == signer.crypto.signingBytes(body);
    assert issuedBody.(signature := None) == body.(signature := None);
    assert issuedBody == body;
  }

  lemma ArtifactsArrive(signer: Signer, t: Task, body: ResultPackage, evidence: seq<Attachment>)
    requires Genuine(signer, t) && t.resultPackage == Some(body) && body.status == Ok && ArtifactsBound(signer.crypto, body, evidence)
    ensures forall a :: a in t.executionArtifacts ==> Arrived(signer.crypto, a, evidence)
  {
    forall a | a in t.executionArtifacts ensures Arrived(signer.crypto, a, evidence) {
      var k :| 0 <= k < |t.executionArtifacts| && t.executionArtifacts[k] == a;
      assert body.artifacts[k] == Declared(a);
      assert Bound(signer.crypto, body.artifacts[k], evidence);
    }
  }

  /**
   SUCCEEDED on a signature means served: the package is an ok package the responder issued for
   this very request, and every artifact of the task behind it arrived with its size and its
   digest, so that without digest collisions the caller holds the very bytes the executor produced.
   */
  lemma {:induction false} SignedMeansServed(p: Parties, r: Record, events: seq<Event>) returns (t: Task)
    requires p.identity.hotlineIds != [] && IgnoresSignature(p.signer.crypto) && CoversAll(p.signer.crypto) && Pinned(p.signer, r)
    requires var s := Run(p, System(r, [], [], []), events);
             s.record.status == Succeeded && s.record.resultPackage.Some? && s.record.resultPackage.value.signature.Some?
    ensures var s := Run(p, System(r, [], [], []), events);
            && t in s.issued && t.resultPackage.Some? && t.resultPackage == s.record.resultPackage
            && t.resultPackage.value.requestId == s.record.requestId && t.resultPackage.value.status == Ok
            && (forall a :: a in t.executionArtifacts ==> Arrived(p.signer.crypto, a, s.evidence))
            && (CollisionFree(p.signer.crypto) ==> forall a :: a in t.executionArtifacts ==>
                  AttachedBytes(s.evidence[FirstNamed(s.evidence, Some(a.name))]) == Decode(a.contentBase64))
  {
    StaysHonest(p, System(r, [], [], []), events);
    UnsignedExactlyWhen(p, r, events);
    var s := Run(p, System(r, [], [], []), events);
    var body := s.record.resultPackage.value;
    t := SignatureNamesPackage(p.signer, s.issued, body);
    ArtifactsArrive(p.signer, t, body, s.evidence);
  }
}
