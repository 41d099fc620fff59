/**
 Over every run of the exchange: whose result a succeeded request holds, and what the executor
 returned for it.
 */
module ResultContext {
  import opened CallerRequests
  import opened Collections
  import opened EndToEnd
  import opened ResponderTasks
  import opened ResultBuilder
  import opened ResultExchange
  import opened Results
  import CallerLifecycle

  /** A succeeded request holds a package about itself, from the responder, hotline and display code it has set. */
  predicate HoldsItsOwn(r: Record) {
    r.status == Succeeded ==> r.resultPackage.Some? && !OutOfContext(r, r.resultPackage.value)
  }

  /** What a preparation would set is what the package says. */
  predicate GrantAgrees(body: ResultPackage, g: Grant) {
    && (g.responderId.Some? && g.responderId.value != "" ==> body.responderId == g.responderId)
    && (g.hotlineId.Some? && g.hotlineId.value != "" ==> body.hotlineId == g.hotlineId)
    && (g.verification.Some? && g.verification.value.displayCode.Some? && g.verification.value.displayCode.value != "" ==>
          body.displayCode == g.verification.value.displayCode)
  }

  /** Checkable before the call: a request that succeeded is not prepared again for someone else. */
  predicate LeavesContext(r: Record, event: Event) {
    event.Elsewhere? && event.step.action.Prepare? && r.status == Succeeded && r.resultPackage.Some?
    && PrepareRequest(r, event.step.action.grant).Some? ==>
      GrantAgrees(r.resultPackage.value, event.step.action.grant)
  }

  lemma PreparationExactlyWhen(r: Record, g: Grant, body: ResultPackage)
    requires !OutOfContext(r, body) && PrepareRequest(r, g).Some?
    ensures !OutOfContext(PrepareRequest(r, g).value, body) <==> GrantAgrees(body, g)
  {
  }

  lemma AppliedHoldsItsOwn(crypto: Crypto, r: Record, body: ResultPackage, attachments: seq<Attachment>)
    ensures HoldsItsOwn(ApplyResultPackage(crypto, r, body, attachments))
  {
    VerdictExactlyWhen(crypto, r, body, attachments);
  }

  predicate SameContext(r: Record, r': Record) {
    r'.requestId == r.requestId && r'.responderId == r.responderId && r'.hotlineId == r.hotlineId && r'.verification == r.verification
  }

  /** Nothing but a result and a preparation touches the status SUCCEEDED, the package or the ids. */
  lemma OthersKeepContext(p: Parties, r: Record, step: CallerLifecycle.Step)
    requires !step.action.DeliverResult? && !step.action.Prepare?
    ensures var r' := CallerLifecycle.Apply(p.signer.crypto, p.config, r, step);
            && (r'.status == Succeeded <==> r.status == Succeeded) && r'.resultPackage == r.resultPackage
            && SameContext(r, r')
  {
    match step.action
    case Evaluate => EvaluationExactlyWhen(r, p.config, step.now);
    case Dispatch =>
    case Acknowledge =>
    case SyncEvents(_) =>
    case DeliverUnreadable =>
    case Decide(_) =>
    case DraftContract =>
  }

  lemma EventExactlyWhen(p: Parties, s: System, event: Event)
    requires p.identity.hotlineIds != [] && HoldsItsOwn(s.record)
    ensures HoldsItsOwn(Next(p, s, event).record) <==> LeavesContext(s.record, event)
  {
    match event
    case Take(k, channel, downloads) =>
      if k < |s.hub| && ExtractResult(s.hub[k]).resultPackage.Some? {
        AppliedHoldsItsOwn(p.signer.crypto, s.record, ExtractResult(s.hub[k]).resultPackage.value,
                           ReceivedAttachments(p.signer.crypto, s.hub[k], channel, downloads));
      }
    case Late(body, attachments) => AppliedHoldsItsOwn(p.signer.crypto, s.record, body, attachments);
    case Elsewhere(step) => ElsewhereExactlyWhen(p, s, step);
    case _ =>
  }

  lemma ElsewhereExactlyWhen(p: Parties, s: System, step: CallerLifecycle.Step)
    requires p.identity.hotlineIds != [] && HoldsItsOwn(s.record)
    ensures HoldsItsOwn(Next(p, s, Elsewhere(step)).record) <==> LeavesContext(s.record, Elsewhere(step))
  {
    if step.action.DeliverResult? {
      AppliedHoldsItsOwn(p.signer.crypto, s.record, step.action.body, step.action.attachments);
    } else if step.action.Prepare? {
      if s.record.status == Succeeded && PrepareRequest(s.record, step.action.grant).Some? {
        PreparationExactlyWhen(s.record, step.action.grant, s.record.resultPackage.value);
      }
    } else {
      OthersKeepContext(p, s.record, step);
    }
  }

  ghost predicate HoldsThroughout(p: Parties, s: System, events: seq<Event>)
    requires p.identity.hotlineIds != []
    decreases |events|
  {
    HoldsItsOwn(Run(p, s, events).record) && (events != [] ==> HoldsThroughout(p, s, events[..|events| - 1]))
  }

  ghost predicate NeverReassigned(p: Parties, s: System, events: seq<Event>)
    requires p.identity.hotlineIds != []
    decreases |events|
  {
    events != [] ==>
      NeverReassigned(p, s, events[..|events| - 1]) && LeavesContext(Run(p, s, events[..|events| - 1]).record, events[|events| - 1])
  }

  /**
   Over every run of a request that has not succeeded yet, whoever sends or posts what: at each of
   its points a succeeded request holds a package about itself from the responder, hotline and
   display code it names, if and only if it is never prepared for another after it succeeded.
   */
  lemma {:induction false} HoldsItsOwnExactlyWhen(p: Parties, s: System, events: seq<Event>)
    requires p.identity.hotlineIds != [] && HoldsItsOwn(s.record)
    ensures HoldsThroughout(p, s, events) <==> NeverReassigned(p, s, events)
    decreases |events|
  {
    if events != [] {
      var init := events[..|events| - 1];
      HoldsItsOwnExactlyWhen(p, s, init);
      if HoldsThroughout(p, s, init) {
        assert HoldsItsOwn(Run(p, s, init).record);
        EventExactlyWhen(p, Run(p, s, init), events[|events| - 1]);
      }
    }
  }

  function From(requestId: Id, responderId: Id, hotlineId: Id): ResultPackage {
    ResultPackage(requestId, Some("0.1.0"), Some(responderId), Some(hotlineId), None, Ok, None, [], None, None, None, None)
  }

  /** It happens: prepared for another responder after it succeeded, a request holds the package of the first. */
  lemma ReassignedAfterwards(p: Parties) returns (events: seq<Event>)
    requires p.identity.hotlineIds != []
    ensures var r := NewRecord("req", Some("a"), Some("h"), None, None, None, 120, None, 90, 300, 0);
            var r' := Run(p, System(r, [], [], []), events).record;
            && r'.status == Succeeded && r'.responderId == Some("b")
            && r'.resultPackage.Some? && r'.resultPackage.value.responderId == Some("a")
  {
    var r := NewRecord("req", Some("a"), Some("h"), None, None, None, 120, None, 90, 300, 0);
    var s0 := System(r, [], [], []);
    var late := Late(From("req", "a", "h"), []);
    var again := Elsewhere(CallerLifecycle.Step(CallerLifecycle.Prepare(Grant(Some("b"), None, None, None)), 0));
    events := [late, again];
    assert events[..1] == [late] && events[..1][..0] == [];
    var s1 := Next(p, s0, late);
    assert Run(p, s0, events[..1]) == s1;
    assert s1.record.status == Succeeded && s1.record.resultPackage == Some(From("req", "a", "h"));
    var s2 := Next(p, s1, again);
    assert Run(p, s0, events) == s2 && s2.record.responderId == Some("b");
  }

  // -------------------------------------------------------------- what the executor returned

  /** This event is the one that settled the task. */
  predicate Settles(p: Parties, event: Event, t: Task)
    requires p.identity.hotlineIds != []
  {
    || (event.Finish? && t == FinishTask(p.signer, CreateTask(event.env, p.identity, event.ids, event.now), event.e))
    || (event.Refuse? && t == RejectTask(p.signer, CreateTask(event.env, p.identity, event.ids, event.now), event.code))
  }

  lemma {:induction false} IssuedWasSettled(p: Parties, s: System, events: seq<Event>, t: Task) returns (k: nat)
    requires p.identity.hotlineIds != [] && s.issued == [] && t in Run(p, s, events).issued
    ensures k < |events| && Settles(p, events[k], t)
    decreases |events|
  {
    var init, last := events[..|events| - 1], events[|events| - 1];
    if t in Run(p, s, init).issued {
      k := IssuedWasSettled(p, s, init, t);
      assert init[k] == events[k];
    } else {
      OnlySettlingIssues(p, Run(p, s, init), last, t);
      k := |events| - 1;
    }
  }

  lemma OnlySettlingIssues(p: Parties, s: System, event: Event, t: Task)
    requires p.identity.hotlineIds != [] && t in Next(p, s, event).issued && t !in s.issued
    ensures Settles(p, event, t)
  {
  }

  /**
   Over every run of a record that pinned the responder's key: succeeded on a signature, it holds
   exactly what an executor returned in some step of the run, output and artifacts, for this request.
   */
  lemma {:induction false} SignedHoldsTheOutput(p: Parties, r: Record, events: seq<Event>) returns (k: nat)
    requires p.identity.hotlineIds != [] && IgnoresSignature(p.signer.crypto) && CoversAll(p.signer.crypto) && Pinned(p.signer, r)
    requires var s := Run(p, System(r, [], [], []), events);
             s.record.status == Succeeded && s.record.resultPackage.Some? && s.record.resultPackage.value.signature.Some?
    ensures k < |events| && events[k].Finish?
    ensures var s := Run(p, System(r, [], [], []), events);
            Delivers(p.signer.crypto, s.record.resultPackage.value, events[k].e) && s.record.resultPackage.value.requestId == s.record.requestId
  {
    var t := SignedMeansServed(p, r, events);
    k := IssuedWasSettled(p, System(r, [], [], []), events, t);
    var event := events[k];
    if event.Finish? {
      PackageSaysWhatWasReturned(p.signer, CreateTask(event.env, p.identity, event.ids, event.now), event.e);
    }
  }
}
