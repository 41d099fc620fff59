/**
 The background sync of active requests: grouped by platform client, fetched in batches, applied
 one by one, timeouts last. The nested loops amount to one update per request.
 */
module EventBatching {
  import opened CallerInbox
  import opened CallerRequests
  import opened Collections

  /** Requests of one client: a whole group, or one batch of it. */
  datatype Group = Group(client: string, ids: seq<Id>)

  function BatchSize(configured: Option<int>): (n: nat)
    ensures n >= 1
  {
    var chosen := if configured.Some? && configured.value != 0 then configured.value else 25;
    if chosen < 1 then 1 else chosen
  }

  /** The configured size if it is positive, one if it is negative, and 25 if there is none. */
  lemma BatchSizeByCase(configured: Option<int>)
    ensures configured.Some? && configured.value > 0 ==> BatchSize(configured) == configured.value
    ensures configured.Some? && configured.value < 0 ==> BatchSize(configured) == 1
    ensures configured.None? || configured.value == 0 ==> BatchSize(configured) == 25
  {
  }

  /** The client a request is synced through, if it is active and has one. */
  function ClientFor(requests: Requests, clientOf: Record -> Option<string>, id: Id): Option<string> {
    if id in requests && Active(requests[id].status) then clientOf(requests[id]) else None
  }

  function SyncedVia(requests: Requests, clientOf: Record -> Option<string>, client: string): Id -> bool {
    (id: Id) => ClientFor(requests, clientOf, id) == Some(client)
  }

  function Synced(requests: Requests, clientOf: Record -> Option<string>): Id -> bool {
    (id: Id) => ClientFor(requests, clientOf, id).Some?
  }

  function OfClient(client: string): Group -> bool {
    (g: Group) => g.client == client
  }

  // -------------------------------------------------------------------------- grouping

  function GroupIndex(groups: seq<Group>, client: string): (i: nat)
    ensures i <= |groups|
    ensures i < |groups| ==> groups[i].client == client
    ensures forall k :: 0 <= k < i ==> groups[k].client != client
  {
    if groups == [] || groups[0].client == client then 0 else 1 + GroupIndex(groups[1..], client)
  }

  function AddTo(groups: seq<Group>, client: string, id: Id): seq<Group> {
    var i := GroupIndex(groups, client);
    if i < |groups| then groups[i := Group(client, groups[i].ids + [id])] else groups + [Group(client, [id])]
  }

  function GroupsOf(requests: Requests, clientOf: Record -> Option<string>, order: seq<Id>): seq<Group> {
    if order == [] then [] else
      var groups := GroupsOf(requests, clientOf, order[..|order| - 1]);
      var client := ClientFor(requests, clientOf, order[|order| - 1]);
      if client.Some? then AddTo(groups, client.value, order[|order| - 1]) else groups
  }

  ghost predicate DistinctClients(groups: seq<Group>) {
    forall i, j :: 0 <= i < j < |groups| ==> groups[i].client != groups[j].client
  }

  function Flatten(groups: seq<Group>): seq<Id> {
    if groups == [] then [] else Flatten(groups[..|groups| - 1]) + groups[|groups| - 1].ids
  }

  lemma {:induction false} FlattenConcat(a: seq<Group>, b: seq<Group>)
    ensures Flatten(a + b) == Flatten(a) + Flatten(b)
    decreases |b|
  {
    if b == [] {
      assert a + b == a;
    } else {
      var init, last := b[..|b| - 1], b[|b| - 1];
      assert (a + b)[..|a + b| - 1] == a + init;
      FlattenConcat(a, init);
    }
  }

  lemma FlattenOne(g: Group)
    ensures Flatten([g]) == g.ids
  {
  }

  lemma AddToDistinct(groups: seq<Group>, client: string, id: Id)
    requires DistinctClients(groups)
    ensures DistinctClients(AddTo(groups, client, id))
  {
  }

  /** One request more in the table: one more at the end of its client's group, and nothing else moves. */
  lemma AddToClient(groups: seq<Group>, client: string, id: Id, other: string)
    requires DistinctClients(groups)
    ensures Flatten(Filter(OfClient(other), AddTo(groups, client, id)))
         == Flatten(Filter(OfClient(other), groups)) + (if other == client then [id] else [])
  {
    var i := GroupIndex(groups, client);
    if i < |groups| {
      ExtendGroup(groups[..i], groups[i], groups[i + 1..], id, other);
      CutAround(groups, i, Group(client, groups[i].ids + [id]));
    } else {
      assert groups + [Group(client, [id])] + [] == groups + [Group(client, [id])];
      SplitFilter(OfClient(other), groups, Group(client, [id]), []);
    }
  }

  lemma ExtendGroup(a: seq<Group>, g: Group, b: seq<Group>, id: Id, other: string)
    requires forall x :: x in b ==> x.client != g.client
    ensures Flatten(Filter(OfClient(other), a + [Group(g.client, g.ids + [id])] + b))
         == Flatten(Filter(OfClient(other), a + [g] + b)) + (if other == g.client then [id] else [])
  {
    SplitFilter(OfClient(other), a, g, b);
    SplitFilter(OfClient(other), a, Group(g.client, g.ids + [id]), b);
    if other == g.client {
      FilterNone(OfClient(other), b);
      LastJoinsLast(Flatten(Filter(OfClient(other), a)), g.ids, id);
    } else {
      NothingJoins(Flatten(Filter(OfClient(other), a + [g] + b)));
    }
  }

  lemma LastJoinsLast(front: seq<Id>, ids: seq<Id>, id: Id)
    ensures front + (ids + [id]) + [] == front + ids + [] + [id]
  {
  }

  lemma NothingJoins(ids: seq<Id>)
    ensures ids + [] == ids
  {
  }

  lemma SplitFilter(p: Group -> bool, a: seq<Group>, g: Group, b: seq<Group>)
    ensures Flatten(Filter(p, a + [g] + b)) == Flatten(Filter(p, a)) + (if p(g) then g.ids else []) + Flatten(Filter(p, b))
  {
    FilterConcat(p, a + [g], b);
    FilterSnoc(p, a, g);
    FlattenConcat(Filter(p, a + [g]), Filter(p, b));
    if p(g) {
      FlattenConcat(Filter(p, a), [g]);
      FlattenOne(g);
    } else {
      assert Filter(p, a) + [] == Filter(p, a);
      assert Flatten(Filter(p, a)) + [] == Flatten(Filter(p, a));
    }
  }

  /** A client's group lists its active requests in table order. */
  lemma {:induction false} GroupOfClient(requests: Requests, clientOf: Record -> Option<string>, order: seq<Id>, client: string)
    ensures DistinctClients(GroupsOf(requests, clientOf, order))
    ensures Flatten(Filter(OfClient(client), GroupsOf(requests, clientOf, order))) == Filter(SyncedVia(requests, clientOf, client), order)
    decreases |order|
  {
    if order != [] {
      var init, id := order[..|order| - 1], order[|order| - 1];
      GroupOfClient(requests, clientOf, init, client);
      var own := ClientFor(requests, clientOf, id);
      if own.Some? {
        AddToDistinct(GroupsOf(requests, clientOf, init), own.value, id);
        AddToClient(GroupsOf(requests, clientOf, init), own.value, id, client);
      }
    }
  }

  // -------------------------------------------------------------------------- batching

  function Batches(client: string, ids: seq<Id>, size: nat): seq<Group>
    requires size >= 1
    decreases |ids|
  {
    if ids == [] then []
    else if |ids| <= size then [Group(client, ids)]
    else [Group(client, ids[..size])] + Batches(client, ids[size..], size)
  }

  function BatchesOf(groups: seq<Group>, size: nat): seq<Group>
    requires size >= 1
  {
    if groups == [] then [] else
      var last := groups[|groups| - 1];
      BatchesOf(groups[..|groups| - 1], size) + Batches(last.client, last.ids, size)
  }

  lemma NextBatch(client: string, ids: seq<Id>, size: nat)
    requires size >= 1 && ids != []
    ensures var n := if |ids| <= size then |ids| else size;
            Batches(client, ids, size) == [Group(client, ids[..n])] + Batches(client, ids[n..], size)
  {
    if |ids| <= size {
      assert ids[..|ids|] == ids && ids[|ids|..] == [];
    }
  }

  lemma {:induction false} BatchesCover(client: string, ids: seq<Id>, size: nat)
    requires size >= 1
    ensures Flatten(Batches(client, ids, size)) == ids
    decreases |ids|
  {
    if ids != [] {
      var n := if |ids| <= size then |ids| else size;
      NextBatch(client, ids, size);
      BatchesCover(client, ids[n..], size);
      FlattenConcat([Group(client, ids[..n])], Batches(client, ids[n..], size));
      FlattenOne(Group(client, ids[..n]));
      assert ids == ids[..n] + ids[n..];
    }
  }

  ghost predicate WellSized(batches: seq<Group>, size: nat) {
    forall b :: b in batches ==> 1 <= |b.ids| <= size
  }

  lemma {:induction false} BatchSizes(client: string, ids: seq<Id>, size: nat)
    requires size >= 1
    ensures WellSized(Batches(client, ids, size), size)
    ensures forall b :: b in Batches(client, ids, size) ==> b.client == client
    decreases |ids|
  {
    if ids != [] {
      var n := if |ids| <= size then |ids| else size;
      NextBatch(client, ids, size);
      BatchSizes(client, ids[n..], size);
    }
  }

  /** Cutting groups into batches keeps, for every client, the same requests in the same order. */
  lemma {:induction false} BatchesOfClient(groups: seq<Group>, size: nat, client: string)
    requires size >= 1
    ensures Flatten(Filter(OfClient(client), BatchesOf(groups, size))) == Flatten(Filter(OfClient(client), groups))
    decreases |groups|
  {
    if groups != [] {
      var init, g := groups[..|groups| - 1], groups[|groups| - 1];
      BatchesOfClient(init, size, client);
      GroupCut(BatchesOf(init, size), g, size, client);
      assert groups == init + [g] + [];
      SplitFilter(OfClient(client), init, g, []);
    }
  }

  lemma GroupCut(before: seq<Group>, g: Group, size: nat, client: string)
    requires size >= 1
    ensures Flatten(Filter(OfClient(client), before + Batches(g.client, g.ids, size)))
         == Flatten(Filter(OfClient(client), before)) + (if g.client == client then g.ids else [])
  {
    var cut := Batches(g.client, g.ids, size);
    BatchesCover(g.client, g.ids, size);
    BatchSizes(g.client, g.ids, size);
    FilterConcat(OfClient(client), before, cut);
    FlattenConcat(Filter(OfClient(client), before), Filter(OfClient(client), cut));
    if g.client == client {
      FilterAll(OfClient(client), cut);
    } else {
      FilterNone(OfClient(client), cut);
    }
  }

  lemma {:induction false} BatchesWellSized(groups: seq<Group>, size: nat)
    requires size >= 1
    ensures WellSized(BatchesOf(groups, size), size)
    decreases |groups|
  {
    if groups != [] {
      BatchesWellSized(groups[..|groups| - 1], size);
      BatchSizes(groups[|groups| - 1].client, groups[|groups| - 1].ids, size);
    }
  }

  /**
   Every batch has between one and the configured number of requests of one client; and client by
   client the batches, read in order, are that client's active requests in table order, each once.
   */
  lemma BatchingIsExact(requests: Requests, clientOf: Record -> Option<string>, order: seq<Id>, size: nat, client: string)
    requires size >= 1
    ensures var batches := BatchesOf(GroupsOf(requests, clientOf, order), size);
            && WellSized(batches, size)
            && Flatten(Filter(OfClient(client), batches)) == Filter(SyncedVia(requests, clientOf, client), order)
  {
    GroupOfClient(requests, clientOf, order, client);
    BatchesOfClient(GroupsOf(requests, clientOf, order), size, client);
    BatchesWellSized(GroupsOf(requests, clientOf, order), size);
  }

  // ------------------------------------------------------------ the pass as one update each

  lemma {:induction false} BatchesFlatten(groups: seq<Group>, size: nat)
    requires size >= 1
    ensures Flatten(BatchesOf(groups, size)) == Flatten(groups)
    decreases |groups|
  {
    if groups != [] {
      var init, g := groups[..|groups| - 1], groups[|groups| - 1];
      BatchesFlatten(init, size);
      BatchesCover(g.client, g.ids, size);
      FlattenConcat(BatchesOf(init, size), Batches(g.client, g.ids, size));
    }
  }

  lemma AddToCounts(groups: seq<Group>, client: string, id: Id, x: Id)
    ensures Tally(Is(x), Flatten(AddTo(groups, client, id))) == Tally(Is(x), Flatten(groups)) + (if x == id then 1 else 0)
  {
    var i := GroupIndex(groups, client);
    if i < |groups| {
      var a, b, g := groups[..i], groups[i + 1..], groups[i];
      CutAround(groups, i, Group(client, g.ids + [id]));
      CountIn(a, g, b, x);
      CountIn(a, Group(client, g.ids + [id]), b, x);
      TallySnoc(Is(x), g.ids, id);
    } else {
      FlattenConcat(groups, [Group(client, [id])]);
      FlattenOne(Group(client, [id]));
      TallySnoc(Is(x), Flatten(groups), id);
    }
  }

  lemma CountIn(a: seq<Group>, g: Group, b: seq<Group>, x: Id)
    ensures Tally(Is(x), Flatten(a + [g] + b))
         == Tally(Is(x), Flatten(a)) + Tally(Is(x), g.ids) + Tally(Is(x), Flatten(b))
  {
    FlattenConcat(a + [g], b);
    FlattenConcat(a, [g]);
    FlattenOne(g);
    TallyConcat(Is(x), Flatten(a) + g.ids, Flatten(b));
    TallyConcat(Is(x), Flatten(a), g.ids);
  }

  lemma {:induction false} GroupedOnce(requests: Requests, clientOf: Record -> Option<string>, order: seq<Id>, x: Id)
    ensures Tally(Is(x), Flatten(GroupsOf(requests, clientOf, order)))
         == if Synced(requests, clientOf)(x) then Tally(Is(x), order) else 0
    decreases |order|
  {
    if order != [] {
      var init, id := order[..|order| - 1], order[|order| - 1];
      GroupedOnce(requests, clientOf, init, x);
      assert order == init + [id];
      TallySnoc(Is(x), init, id);
      var own := ClientFor(requests, clientOf, id);
      if own.Some? {
        AddToCounts(GroupsOf(requests, clientOf, init), own.value, id, x);
      }
    }
  }

  /** The batches together hold each active request with a client exactly once, whatever the batch size. */
  lemma EachSyncedOnce(requests: Requests, clientOf: Record -> Option<string>, order: seq<Id>, size: nat)
    requires size >= 1 && NoDuplicates(order)
    ensures var ids := Flatten(BatchesOf(GroupsOf(requests, clientOf, order), size));
            NoDuplicates(ids) && forall id :: id in ids <==> id in order && Synced(requests, clientOf)(id)
  {
    var ids := Flatten(BatchesOf(GroupsOf(requests, clientOf, order), size));
    BatchesFlatten(GroupsOf(requests, clientOf, order), size);
    forall x
      ensures Tally(Is(x), ids) == if x in order && Synced(requests, clientOf)(x) then 1 else 0
    {
      GroupedOnce(requests, clientOf, order, x);
      OccursOnce(order, x);
    }
    forall id ensures id in ids <==> id in order && Synced(requests, clientOf)(id) {
      TallyZero(Is(id), ids);
    }
    forall i, j | 0 <= i < j < |ids| ensures ids[i] != ids[j] {
      if ids[i] == ids[j] {
        TallyTwo(Is(ids[i]), ids, i, j);
      }
    }
  }

  /** What the platform answered for a request, by batch or by the single-request fallback; `None` when it knew nothing or failed. */
  type Answers = Id -> Option<seq<PlatformEvent>>

  function Answered(r: Record, answer: Option<seq<PlatformEvent>>): Record {
    if answer.Some? then ApplyPlatformEvents(r, answer.value) else r
  }

  function ApplyAnswers(requests: Requests, ids: seq<Id>, answers: Answers): Requests {
    if ids == [] then requests else
      var before := ApplyAnswers(requests, ids[..|ids| - 1], answers);
      var id := ids[|ids| - 1];
      if id in before then before[id := Answered(before[id], answers(id))] else before
  }

  function EvaluateAll(requests: Requests, ids: seq<Id>, config: CallerConfig, now: int): Requests {
    if ids == [] then requests else
      var before := EvaluateAll(requests, ids[..|ids| - 1], config, now);
      var id := ids[|ids| - 1];
      if id in before then before[id := EvaluateTimeouts(before[id], config, now)] else before
  }

  /** The simple form: every request on its own, synced if it is active and has a client, then evaluated. */
  function SyncedRecord(r: Record, clientOf: Record -> Option<string>, answers: Answers, id: Id, config: CallerConfig, now: int): Record {
    EvaluateTimeouts(if Active(r.status) && clientOf(r).Some? then Answered(r, answers(id)) else r, config, now)
  }

  /** What the sync makes of one request: acked by the first ack the platform reports, if it is open, not acked yet and has a client; and then only its clock counts. */
  lemma SyncedAsAnswered(r: Record, clientOf: Record -> Option<string>, answers: Answers, id: Id, config: CallerConfig, now: int)
    ensures var after := SyncedRecord(r, clientOf, answers, id, config, now);
            var asked := (r.status == Created || r.status == Sent) && clientOf(r).Some? && answers(id).Some?;
            && (!asked ==> after == EvaluateTimeouts(r, config, now))
            && (asked && (forall i :: 0 <= i < |answers(id).value| ==> !answers(id).value[i].eventType.AckedEvent?) ==>
                  after == EvaluateTimeouts(r, config, now))
            && (asked && (exists i :: 0 <= i < |answers(id).value| && answers(id).value[i].eventType.AckedEvent?) ==>
                  exists i :: 0 <= i < |answers(id).value| && IsFirstAck(answers(id).value, i)
                    && after == EvaluateTimeouts(r.(status := Acked, lastError := None, acknowledgedAt := answers(id).value[i].at), config, now))
  {
    if answers(id).Some? {
      FirstAckIsFirst(answers(id).value);
    }
  }

  lemma {:induction false} AnswersPointwise(requests: Requests, ids: seq<Id>, answers: Answers)
    requires NoDuplicates(ids)
    ensures var after := ApplyAnswers(requests, ids, answers);
            && after.Keys == requests.Keys
            && forall id :: id in requests ==> after[id] == if id in ids then Answered(requests[id], answers(id)) else requests[id]
    decreases |ids|
  {
    if ids != [] {
      var init, last := ids[..|ids| - 1], ids[|ids| - 1];
      assert ids == init + [last] && last !in init;
      AnswersPointwise(requests, init, answers);
    }
  }

  lemma {:induction false} EvaluatedPointwise(requests: Requests, ids: seq<Id>, config: CallerConfig, now: int)
    requires NoDuplicates(ids)
    ensures var after := EvaluateAll(requests, ids, config, now);
            && after.Keys == requests.Keys
            && forall id :: id in requests ==> after[id] == if id in ids then EvaluateTimeouts(requests[id], config, now) else requests[id]
    decreases |ids|
  {
    if ids != [] {
      var init, last := ids[..|ids| - 1], ids[|ids| - 1];
      assert ids == init + [last] && last !in init;
      EvaluatedPointwise(requests, init, config, now);
    }
  }

  // ----------------------------------------------------------------------- the nested loops

  method CollectGroups(state: CallerState, order: seq<Id>, clientOf: Record -> Option<string>) returns (groups: seq<Group>)
    ensures groups == GroupsOf(state.requests, clientOf, order)
  {
    groups := [];
    var i := 0;
    while i < |order|
      invariant 0 <= i <= |order|
      invariant groups == GroupsOf(state.requests, clientOf, order[..i])
    {
      assert order[..i + 1][..i] == order[..i];
      var client := ClientFor(state.requests, clientOf, order[i]);
      if client.Some? {
        var k := GroupIndex(groups, client.value);
        groups := if k < |groups| then groups[k := Group(client.value, groups[k].ids + [order[i]])] else groups + [Group(client.value, [order[i]])];
      }
      i := i + 1;
    }
    assert order[..|order|] == order;
  }

  method ApplyBatch(state: CallerState, batch: seq<Id>, answers: Answers)
    modifies state
    ensures state.requests == ApplyAnswers(old(state.requests), batch, answers)
  {
    ghost var before := state.requests;
    var i := 0;
    while i < |batch|
      invariant 0 <= i <= |batch|
      invariant state.requests == ApplyAnswers(before, batch[..i], answers)
    {
      assert batch[..i + 1][..i] == batch[..i];
      if batch[i] in state.requests {
        state.requests := state.requests[batch[i] := Answered(state.requests[batch[i]], answers(batch[i]))];
      }
      i := i + 1;
    }
    assert batch[..|batch|] == batch;
  }

  lemma {:induction false} AnswersConcat(requests: Requests, a: seq<Id>, b: seq<Id>, answers: Answers)
    ensures ApplyAnswers(requests, a + b, answers) == ApplyAnswers(ApplyAnswers(requests, a, answers), b, answers)
    decreases |b|
  {
    if b == [] {
      assert a + b == a;
    } else {
      assert (a + b)[..|a + b| - 1] == a + b[..|b| - 1];
      AnswersConcat(requests, a, b[..|b| - 1], answers);
    }
  }

  lemma CutTwice(ids: seq<Id>, i: nat, j: nat)
    requires i <= j <= |ids|
    ensures ids[i..][..j - i] == ids[i..j] && ids[i..][j - i..] == ids[j..] && ids[..i] + ids[i..j] == ids[..j]
  {
  }

  /** One batch further: what remains to be cut, and what has been applied. */
  lemma BatchStep(before: Requests, group: Group, index: nat, end: nat, size: nat, answers: Answers)
    requires size >= 1 && index < |group.ids| && end == if |group.ids| - index <= size then |group.ids| else index + size
    ensures Batches(group.client, group.ids[index..], size)
         == [Group(group.client, group.ids[index..end])] + Batches(group.client, group.ids[end..], size)
    ensures ApplyAnswers(before, group.ids[..end], answers)
         == ApplyAnswers(ApplyAnswers(before, group.ids[..index], answers), group.ids[index..end], answers)
  {
    NextBatch(group.client, group.ids[index..], size);
    CutTwice(group.ids, index, end);
    AnswersConcat(before, group.ids[..index], group.ids[index..end], answers);
  }

  /** One client's requests, `size` at a time. */
  method SyncGroup(state: CallerState, group: Group, size: nat, answers: Answers) returns (batches: seq<Group>)
    requires size >= 1
    modifies state
    ensures batches == Batches(group.client, group.ids, size)
    ensures state.requests == ApplyAnswers(old(state.requests), group.ids, answers)
  {
    ghost var before := state.requests;
    batches := [];
    var index := 0;
    assert group.ids[0..] == group.ids;
    while index < |group.ids|
      invariant 0 <= index <= |group.ids|
      invariant batches + Batches(group.client, group.ids[index..], size) == Batches(group.client, group.ids, size)
      invariant state.requests == ApplyAnswers(before, group.ids[..index], answers)
      decreases |group.ids| - index
    {
      var end := if |group.ids| - index <= size then |group.ids| else index + size;
      BatchStep(before, group, index, end, size, answers);
      ApplyBatch(state, group.ids[index..end], answers);
      batches := batches + [Group(group.client, group.ids[index..end])];
      index := end;
    }
    assert group.ids[|group.ids|..] == [] && group.ids[..|group.ids|] == group.ids;
  }

  method SyncGroups(state: CallerState, groups: seq<Group>, size: nat, answers: Answers) returns (batches: seq<Group>)
    requires size >= 1
    modifies state
    ensures batches == BatchesOf(groups, size)
    ensures state.requests == ApplyAnswers(old(state.requests), Flatten(groups), answers)
  {
    ghost var before := state.requests;
    batches := [];
    var g := 0;
    while g < |groups|
      invariant 0 <= g <= |groups|
      invariant batches == BatchesOf(groups[..g], size)
      invariant state.requests == ApplyAnswers(before, Flatten(groups[..g]), answers)
    {
      assert groups[..g + 1][..g] == groups[..g];
      AnswersConcat(before, Flatten(groups[..g]), groups[g].ids, answers);
      var more := SyncGroup(state, groups[g], size, answers);
      batches := batches + more;
      g := g + 1;
    }
    assert groups[..|groups|] == groups;
  }

  method EvaluateEach(state: CallerState, order: seq<Id>, config: CallerConfig, now: int)
    modifies state
    ensures state.requests == EvaluateAll(old(state.requests), order, config, now)
  {
    ghost var before := state.requests;
    var i := 0;
    while i < |order|
      invariant 0 <= i <= |order|
      invariant state.requests == EvaluateAll(before, order[..i], config, now)
    {
      assert order[..i + 1][..i] == order[..i];
      if order[i] in state.requests {
        state.requests := state.requests[order[i] := EvaluateTimeouts(state.requests[order[i]], config, now)];
      }
      i := i + 1;
    }
    assert order[..|order|] == order;
  }

  /** The whole pass: `order` is the table's iteration order. Grouping and batching leave no trace in the outcome. */
  method SyncActiveRequests(state: CallerState, order: seq<Id>, clientOf: Record -> Option<string>, configured: Option<int>,
                            answers: Answers, config: CallerConfig, now: int)
    returns (batches: seq<Group>)
    requires NoDuplicates(order) && (forall id :: id in order <==> id in state.requests)
    modifies state
    ensures batches == BatchesOf(GroupsOf(old(state.requests), clientOf, order), BatchSize(configured))
    ensures state.requests.Keys == old(state.requests).Keys
    ensures forall id :: id in state.requests ==>
              state.requests[id] == SyncedRecord(old(state.requests)[id], clientOf, answers, id, config, now)
  {
    ghost var before := state.requests;
    var groups := CollectGroups(state, order, clientOf);
    batches := SyncGroups(state, groups, BatchSize(configured), answers);
    BatchesFlatten(groups, BatchSize(configured));
    EachSyncedOnce(before, clientOf, order, BatchSize(configured));
    AnswersPointwise(before, Flatten(groups), answers);
    ghost var synced := state.requests;
    EvaluateEach(state, order, config, now);
    EvaluatedPointwise(synced, order, config, now);
  }
}
