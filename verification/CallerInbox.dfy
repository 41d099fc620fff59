/** The caller's inbox pass: which result envelopes it acks, and what that promises about their requests. */
module CallerInbox {
  import opened ArtifactChannel
  import opened CallerRequests
  import opened Collections
  import opened EndToEnd
  import opened LocalHub
  import opened Results

  type Requests = map<Id, Record>

  const PASS_LIMIT: nat := 10

  /** The request a readable envelope is about: the one its package names. */
  function Subject(env: ResultEnvelope): Option<Id> {
    var body := ExtractResult(env).resultPackage;
    if body.Some? && body.value.requestId != "" then Some(body.value.requestId) else None
  }

  /** A body that does not parse falls back to the request id on the envelope itself. */
  predicate Unreadable(env: ResultEnvelope) {
    ExtractResult(env).parseError && Given(env.requestId)
  }

  predicate Handled(requests: Requests, env: ResultEnvelope) {
    Unreadable(env) || (Subject(env).Some? && Subject(env).value in requests)
  }

  /** What one envelope does to the table; `channel` says whether its request's platform offers the artifact channel. */
  function Absorb(crypto: Crypto, requests: Requests, env: ResultEnvelope, channel: Id -> bool, downloads: nat -> DownloadAnswer): Requests {
    if Unreadable(env) then
      if env.requestId.value in requests
      then requests[env.requestId.value := MarkUnreadable(requests[env.requestId.value])] else requests
    else if Subject(env).Some? && Subject(env).value in requests then
      var id := Subject(env).value;
      if Terminal(requests[id].status) then requests
      else requests[id := Receive(crypto, requests[id], env, channel(id), downloads)]
    else requests
  }

  function AbsorbAll(crypto: Crypto, requests: Requests, items: seq<ResultEnvelope>, channel: Id -> bool, downloads: nat -> nat -> DownloadAnswer): Requests {
    if items == [] then requests else
      var i := |items| - 1;
      Absorb(crypto, AbsorbAll(crypto, requests, items[..i], channel, downloads), items[i], channel, downloads(i))
  }

  function IsHandled(requests: Requests): ResultEnvelope -> bool {
    (env: ResultEnvelope) => Handled(requests, env)
  }

  /** Acks remove the handled envelopes; whether one is handled depends on known ids only, which a pass never changes. */
  function AckHandled(requests: Requests, queue: seq<ResultEnvelope>, items: seq<ResultEnvelope>): seq<ResultEnvelope> {
    AckEach(ResultMessageId, IsHandled(requests), queue, items)
  }

  /** Where the package of an envelope is, or that its text does not parse, as `CallerRequests.ReadFirstPlace` says. */
  lemma HandledExactlyWhen(requests: Requests, env: ResultEnvelope)
    ensures var x := ExtractResult(env);
            Handled(requests, env) <==>
              || (x.parseError && env.requestId.Some? && env.requestId.value != "")
              || (x.resultPackage.Some? && x.resultPackage.value.requestId != "" && x.resultPackage.value.requestId in requests)
  {
  }

  /**
   What an envelope does to the table: an open request its unparsable text is about is refused for
   that; an open request its package is about gets the verdict on it; no other record changes.
   */
  lemma AbsorbedExactly(crypto: Crypto, requests: Requests, env: ResultEnvelope, channel: Id -> bool, downloads: nat -> DownloadAnswer)
    ensures var x, after := ExtractResult(env), Absorb(crypto, requests, env, channel, downloads);
            && (x.parseError && env.requestId.Some? && env.requestId.value != "" && env.requestId.value in requests
                && !Terminal(requests[env.requestId.value].status) ==>
                  after == requests[env.requestId.value :=
                             requests[env.requestId.value].(status := Unverified, lastError := Some("RESULT_BODY_INVALID_JSON"))])
            && (x.resultPackage.Some? && x.resultPackage.value.requestId != "" && x.resultPackage.value.requestId in requests
                && !Terminal(requests[x.resultPackage.value.requestId].status) ==>
                  var id := x.resultPackage.value.requestId;
                  after == requests[id := ApplyResultPackage(crypto, requests[id], x.resultPackage.value,
                                                             ReceivedAttachments(crypto, env, channel(id), downloads))])
            && (!Handled(requests, env) ==> after == requests)
            && (forall id :: id in requests && Terminal(requests[id].status) ==> id in after && after[id] == requests[id])
  {
    ReadFirstPlace(env);
  }

  // ------------------------------------------------------------------------- one envelope

  /** An absorbed envelope settles the request it names, disturbs no other, and overturns nothing already settled. */
  lemma AbsorbSettles(crypto: Crypto, requests: Requests, env: ResultEnvelope, channel: Id -> bool, downloads: nat -> DownloadAnswer)
    ensures var after := Absorb(crypto, requests, env, channel, downloads);
            && after.Keys == requests.Keys
            && (Unreadable(env) && env.requestId.value in requests ==> Terminal(after[env.requestId.value].status))
            && (!Unreadable(env) && Subject(env).Some? && Subject(env).value in requests ==> Terminal(after[Subject(env).value].status))
            && (forall id :: id in requests && Terminal(requests[id].status) ==> after[id] == requests[id])
  {
  }

  /** The request an acked envelope stands for. */
  function Settles(env: ResultEnvelope): Id
    requires Unreadable(env) || Subject(env).Some?
  {
    if Unreadable(env) then env.requestId.value else Subject(env).value
  }

  lemma {:induction false} AbsorbAllSettles(crypto: Crypto, requests: Requests, items: seq<ResultEnvelope>,
                                            channel: Id -> bool, downloads: nat -> nat -> DownloadAnswer)
    ensures var after := AbsorbAll(crypto, requests, items, channel, downloads);
            && after.Keys == requests.Keys
            && (forall env :: env in items && Handled(requests, env) && Settles(env) in requests ==> Terminal(after[Settles(env)].status))
            && (forall id :: id in requests && Terminal(requests[id].status) ==> after[id] == requests[id])
    decreases |items|
  {
    if items != [] {
      var i := |items| - 1;
      assert items == items[..i] + [items[i]];
      AbsorbAllSettles(crypto, requests, items[..i], channel, downloads);
      AbsorbSettles(crypto, AbsorbAll(crypto, requests, items[..i], channel, downloads), items[i], channel, downloads(i));
    }
  }

  lemma OneMore(crypto: Crypto, requests: Requests, queue: seq<ResultEnvelope>, items: seq<ResultEnvelope>, i: nat,
                channel: Id -> bool, downloads: nat -> nat -> DownloadAnswer)
    requires i < |items|
    ensures var before := AbsorbAll(crypto, requests, items[..i], channel, downloads);
            && AbsorbAll(crypto, requests, items[..i + 1], channel, downloads) == Absorb(crypto, before, items[i], channel, downloads(i))
            && (Handled(before, items[i]) <==> Handled(requests, items[i]))
    ensures AckHandled(requests, queue, items[..i + 1])
         == if Handled(requests, items[i]) then RemoveFirst(ResultMessageId, AckHandled(requests, queue, items[..i]), items[i].messageId)
            else AckHandled(requests, queue, items[..i])
  {
    assert items[..i + 1][..i] == items[..i];
    AckOneMore(ResultMessageId, IsHandled(requests), queue, items, i);
    AbsorbAllSettles(crypto, requests, items[..i], channel, downloads);
  }

  // --------------------------------------------------------------------------- the pass

  class CallerState {
    const crypto: Crypto
    var requests: Requests

    constructor (crypto: Crypto)
      ensures this.crypto == crypto && requests == map[]
    {
      this.crypto, requests := crypto, map[];
    }

    method TakeOne(env: ResultEnvelope, channel: Id -> bool, downloads: nat -> DownloadAnswer) returns (ack: bool, mutated: bool)
      modifies this
      ensures requests == Absorb(crypto, old(requests), env, channel, downloads)
      ensures ack == Handled(old(requests), env)
      ensures !mutated ==> requests == old(requests)
    {
      var extracted := ExtractResult(env);
      mutated := false;
      if extracted.parseError && Given(env.requestId) {
        var id := env.requestId.value;
        if id in requests && !Terminal(requests[id].status) {
          requests := requests[id := Refused(requests[id], "RESULT_BODY_INVALID_JSON")];
          mutated := true;
        } else if id in requests {
          assert requests[id := requests[id]] == requests;
        }
        return true, mutated;
      }
      if extracted.resultPackage.None? || extracted.resultPackage.value.requestId == "" {
        return false, false;
      }
      var id := extracted.resultPackage.value.requestId;
      if id !in requests {
        return false, false;
      }
      var attachments := extracted.attachments;
      var descriptors := EnvelopeDescriptors(env);
      if descriptors != [] && channel(id) {
        var resolved, failures := ResolveArtifactDescriptors(crypto, descriptors, downloads);
        attachments := attachments + resolved;
      } else {
        assert attachments + [] == attachments;
      }
      assert attachments == ReceivedAttachments(crypto, env, channel(id), downloads);
      if !Terminal(requests[id].status) {
        requests := requests[id := ApplyResultPackage(crypto, requests[id], extracted.resultPackage.value, attachments)];
        mutated := true;
      }
      return true, mutated;
    }

    method TakeAndAck(hub: Hub<ResultEnvelope>, receiver: Id, env: ResultEnvelope, channel: Id -> bool, downloads: nat -> DownloadAnswer)
      returns (mutated: bool)
      requires hub.idOf == ResultMessageId
      modifies this, hub
      ensures requests == Absorb(crypto, old(requests), env, channel, downloads)
      ensures hub.Queue(receiver) == if Handled(old(requests), env) then RemoveFirst(ResultMessageId, old(hub.Queue(receiver)), env.messageId)
                                     else old(hub.Queue(receiver))
      ensures !mutated ==> requests == old(requests)
    {
      var ack;
      ack, mutated := TakeOne(env, channel, downloads);
      if ack {
        var _ := hub.Ack(receiver, env.messageId);
      }
    }

    /**
     Up to ten envelopes are read and the handled ones acked. Afterwards every acked envelope names
     a request that is terminal, or one that was never known, and then its body did not parse.
     */
    method PollInbox(hub: Hub<ResultEnvelope>, receiver: Id, channel: Id -> bool, downloads: nat -> nat -> DownloadAnswer)
      returns (items: seq<ResultEnvelope>, mutated: bool)
      requires hub.idOf == ResultMessageId
      modifies this, hub
      ensures items == FirstFew(old(hub.Queue(receiver)), PASS_LIMIT)
      ensures items <= old(hub.Queue(receiver)) && |items| == if |old(hub.Queue(receiver))| < 10 then |old(hub.Queue(receiver))| else 10
      ensures requests == AbsorbAll(crypto, old(requests), items, channel, downloads)
      ensures hub.Queue(receiver) == AckHandled(old(requests), old(hub.Queue(receiver)), items)
      ensures !mutated ==> requests == old(requests)
      ensures forall env :: env in items && Handled(old(requests), env) ==>
                if Settles(env) in requests then Terminal(requests[Settles(env)].status) else Unreadable(env)
    {
      items := hub.Poll(receiver, PASS_LIMIT);
      mutated := false;
      ghost var requests0, queue0 := requests, hub.Queue(receiver);
      var i := 0;
      while i < |items|
        invariant 0 <= i <= |items|
        invariant requests == AbsorbAll(crypto, requests0, items[..i], channel, downloads)
        invariant hub.Queue(receiver) == AckHandled(requests0, queue0, items[..i])
        invariant !mutated ==> requests == requests0
      {
        OneMore(crypto, requests0, queue0, items, i, channel, downloads);
        var changed := TakeAndAck(hub, receiver, items[i], channel, downloads(i));
        mutated := mutated || changed;
        i := i + 1;
      }
      assert items[..|items|] == items;
      AbsorbAllSettles(crypto, requests0, items, channel, downloads);
    }
  }

  // ------------------------------------------------------------------------- consequences

  /** Envelopes that share no id with a handled one stay queued, in order: nothing is dropped unread. */
  lemma UnreadStays(requests: Requests, queue: seq<ResultEnvelope>, items: seq<ResultEnvelope>, p: ResultEnvelope -> bool)
    requires forall m: ResultEnvelope, env :: p(m) && env in items && Handled(requests, env) ==> m.messageId != env.messageId
    ensures Filter(p, AckHandled(requests, queue, items)) == Filter(p, queue)
  {
    UnhandledStays(ResultMessageId, IsHandled(requests), queue, items, p);
  }

  /**
   A pass gets past the front of the queue exactly when it can handle something there: ten
   envelopes for unknown requests at the front hold up everything queued behind them.
   */
  lemma InboxBlockedExactlyWhen(requests: Requests, queue: seq<ResultEnvelope>)
    ensures AckHandled(requests, queue, FirstFew(queue, PASS_LIMIT)) == queue
       <==> forall env :: env in FirstFew(queue, PASS_LIMIT) ==> !Handled(requests, env)
  {
    BlockedExactlyWhen(ResultMessageId, IsHandled(requests), queue, PASS_LIMIT);
  }
}
