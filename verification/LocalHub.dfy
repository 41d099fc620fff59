/** The in-process message hub: one queue per receiver, polled without removal, shortened only by acks. */
module LocalHub {
  import opened Collections

  /** The queue without the first message of this id. */
  function RemoveFirst<M>(idOf: M -> Id, queue: seq<M>, id: Id): seq<M> {
    if queue == [] then []
    else if idOf(queue[0]) == id then queue[1..]
    else [queue[0]] + RemoveFirst(idOf, queue[1..], id)
  }

  predicate Holds<M>(idOf: M -> Id, queue: seq<M>, id: Id) {
    exists i :: 0 <= i < |queue| && idOf(queue[i]) == id
  }

  /** Removing the first match is cutting the queue where the search stopped. */
  lemma {:induction false} RemoveAt<M>(idOf: M -> Id, queue: seq<M>, id: Id, i: nat)
    requires i <= |queue| && forall k :: 0 <= k < i ==> idOf(queue[k]) != id
    requires i < |queue| ==> idOf(queue[i]) == id
    ensures RemoveFirst(idOf, queue, id) == if i < |queue| then queue[..i] + queue[i + 1..] else queue
    decreases i
  {
    if i > 0 {
      RemoveAt(idOf, queue[1..], id, i - 1);
      assert queue == [queue[0]] + queue[1..];
      if i < |queue| {
        assert queue[1..][..i - 1] == queue[1..i] && queue[1..][i..] == queue[i + 1..];
        assert queue[..i] == [queue[0]] + queue[1..i];
      }
    } else if queue != [] {
      assert queue[..0] + queue[1..] == queue[1..];
    }
  }

  function QueueIn<M>(queues: map<Id, seq<M>>, receiver: Id): seq<M> {
    if receiver in queues then queues[receiver] else []
  }

  function FirstFew<M>(queue: seq<M>, limit: nat): seq<M> {
    if limit < |queue| then queue[..limit] else queue
  }

  lemma FirstFewIsTheFront<M>(queue: seq<M>, limit: nat)
    ensures FirstFew(queue, limit) <= queue
    ensures |FirstFew(queue, limit)| == if |queue| < limit then |queue| else limit
  {
  }

  class Hub<M> {
    const idOf: M -> Id
    var queues: map<Id, seq<M>>

    constructor (idOf: M -> Id)
      ensures this.idOf == idOf && forall r :: Queue(r) == []
    {
      this.idOf, queues := idOf, map[];
    }

    function Queue(receiver: Id): seq<M>
      reads this
    {
      QueueIn(queues, receiver)
    }

    /** Asking for a queue creates it, which nobody can tell from an empty one. */
    method GetQueue(receiver: Id) returns (queue: seq<M>)
      modifies this
      ensures queue == old(Queue(receiver)) && receiver in queues
      ensures forall r :: Queue(r) == old(Queue(r))
    {
      if receiver !in queues {
        queues := queues[receiver := []];
      }
      queue := queues[receiver];
    }

    method Send(target: Id, message: M)
      modifies this
      ensures Queue(target) == old(Queue(target)) + [message]
      ensures forall r :: r != target ==> Queue(r) == old(Queue(r))
    {
      var queue := GetQueue(target);
      queues := queues[target := queue + [message]];
    }

    method Poll(receiver: Id, limit: nat) returns (items: seq<M>)
      modifies this
      ensures items == FirstFew(Queue(receiver), limit)
      ensures forall r :: Queue(r) == old(Queue(r))
    {
      var queue := GetQueue(receiver);
      items := FirstFew(queue, limit);
    }

    method Ack(receiver: Id, id: Id) returns (acked: bool)
      modifies this
      ensures acked <==> Holds(idOf, old(Queue(receiver)), id)
      ensures Queue(receiver) == RemoveFirst(idOf, old(Queue(receiver)), id)
      ensures forall r :: r != receiver ==> Queue(r) == old(Queue(r))
    {
      var queue := GetQueue(receiver);
      var index := 0;
      while index < |queue| && idOf(queue[index]) != id
        invariant 0 <= index <= |queue|
        invariant forall k :: 0 <= k < index ==> idOf(queue[k]) != id
      {
        index := index + 1;
      }
      RemoveAt(idOf, queue, id, index);
      acked := index < |queue|;
      if acked {
        queues := queues[receiver := queue[..index] + queue[index + 1..]];
      }
    }
  }

  /** One party's handle on the hub: calls go to its own receiver unless they name another. */
  class Adapter<M> {
    const hub: Hub<M>
    const receiver: Id

    constructor (hub: Hub<M>, receiver: Id)
      ensures this.hub == hub && this.receiver == receiver
    {
      this.hub, this.receiver := hub, receiver;
    }

    function Target(override: Option<Id>): Id {
      if override.Some? && override.value != "" then override.value else receiver
    }

    method Poll(limit: nat, override: Option<Id>) returns (items: seq<M>)
      modifies hub
      ensures items == FirstFew(old(hub.Queue(Target(override))), limit)
      ensures forall r :: hub.Queue(r) == old(hub.Queue(r))
    {
      items := hub.Poll(Target(override), limit);
    }

    method Ack(id: Id, override: Option<Id>) returns (acked: bool)
      modifies hub
      ensures hub.Queue(Target(override)) == RemoveFirst(hub.idOf, old(hub.Queue(Target(override))), id)
      ensures forall r :: r != Target(override) ==> hub.Queue(r) == old(hub.Queue(r))
      ensures acked <==> Holds(hub.idOf, old(hub.Queue(Target(override))), id)
    {
      acked := hub.Ack(Target(override), id);
    }
  }

  // --------------------------------------------------------------------- passes over a queue

  /** What is left of a queue after a pass over `items` acked the handled ones. */
  function AckEach<M>(idOf: M -> Id, handled: M -> bool, queue: seq<M>, items: seq<M>): seq<M> {
    if items == [] then queue else
      var rest := AckEach(idOf, handled, queue, items[..|items| - 1]);
      var m := items[|items| - 1];
      if handled(m) then RemoveFirst(idOf, rest, idOf(m)) else rest
  }

  lemma AckOneMore<M>(idOf: M -> Id, handled: M -> bool, queue: seq<M>, items: seq<M>, i: nat)
    requires i < |items|
    ensures var rest := AckEach(idOf, handled, queue, items[..i]);
            AckEach(idOf, handled, queue, items[..i + 1]) == if handled(items[i]) then RemoveFirst(idOf, rest, idOf(items[i])) else rest
  {
    assert items[..i + 1][..i] == items[..i];
  }

  lemma {:induction false} NothingAcked<M>(idOf: M -> Id, handled: M -> bool, queue: seq<M>, items: seq<M>)
    requires forall m :: m in items ==> !handled(m)
    ensures AckEach(idOf, handled, queue, items) == queue
    decreases |items|
  {
    if items != [] {
      assert items[|items| - 1] in items;
      NothingAcked(idOf, handled, queue, items[..|items| - 1]);
    }
  }

  lemma {:induction false} RemovalShrinks<M>(idOf: M -> Id, queue: seq<M>, id: Id)
    ensures |RemoveFirst(idOf, queue, id)| == if Holds(idOf, queue, id) then |queue| - 1 else |queue|
    decreases |queue|
  {
    if queue != [] && idOf(queue[0]) != id {
      RemovalShrinks(idOf, queue[1..], id);
      if Holds(idOf, queue, id) {
        var i :| 0 <= i < |queue| && idOf(queue[i]) == id;
        assert idOf(queue[1..][i - 1]) == id;
      }
    } else if queue != [] {
      assert idOf(queue[0]) == id;
    }
  }

  /** The first handled message is still queued when it is acked, so a pass that handles something shortens the queue. */
  lemma {:induction false} AckShrinks<M>(idOf: M -> Id, handled: M -> bool, queue: seq<M>, items: seq<M>, all: seq<M>)
    requires items <= all && all <= queue
    ensures |AckEach(idOf, handled, queue, items)| <= |queue|
    ensures (exists m :: m in items && handled(m)) ==> |AckEach(idOf, handled, queue, items)| < |queue|
    decreases |items|
  {
    if items != [] {
      var init, m := items[..|items| - 1], items[|items| - 1];
      AckShrinks(idOf, handled, queue, init, all);
      RemovalShrinks(idOf, AckEach(idOf, handled, queue, init), idOf(m));
      assert items == init + [m];
      if handled(m) && !(exists x :: x in init && handled(x)) {
        NothingAcked(idOf, handled, queue, init);
        assert idOf(queue[|items| - 1]) == idOf(m);
      }
    }
  }

  /** A pass over the front of a queue leaves it as it was exactly when it handles nothing there. */
  lemma BlockedExactlyWhen<M>(idOf: M -> Id, handled: M -> bool, queue: seq<M>, limit: nat)
    ensures AckEach(idOf, handled, queue, FirstFew(queue, limit)) == queue
       <==> forall m :: m in FirstFew(queue, limit) ==> !handled(m)
  {
    var items := FirstFew(queue, limit);
    AckShrinks(idOf, handled, queue, items, items);
    if forall m :: m in items ==> !handled(m) {
      NothingAcked(idOf, handled, queue, items);
    }
  }

  /** Messages that share no id with a handled one stay, in order. */
  lemma {:induction false} UnhandledStays<M(!new)>(idOf: M -> Id, handled: M -> bool, queue: seq<M>, items: seq<M>, p: M -> bool)
    requires forall m, x :: p(m) && x in items && handled(x) ==> idOf(m) != idOf(x)
    ensures Filter(p, AckEach(idOf, handled, queue, items)) == Filter(p, queue)
    decreases |items|
  {
    if items != [] {
      var init, m := items[..|items| - 1], items[|items| - 1];
      assert m in items;
      UnhandledStays(idOf, handled, queue, init, p);
      if handled(m) {
        RemovalKeepsOthers(idOf, p, AckEach(idOf, handled, queue, init), idOf(m));
      }
    }
  }

  // ------------------------------------------------------------ whole histories of a hub

  datatype Operation<M> = Send(target: Id, message: M) | Poll(receiver: Id) | Ack(receiver: Id, id: Id)

  function Effect<M>(idOf: M -> Id, queues: map<Id, seq<M>>, op: Operation<M>): map<Id, seq<M>> {
    match op
    case Send(target, message) => queues[target := QueueIn(queues, target) + [message]]
    case Poll(receiver) => queues[receiver := QueueIn(queues, receiver)]
    case Ack(receiver, id) => queues[receiver := RemoveFirst(idOf, QueueIn(queues, receiver), id)]
  }

  function After<M>(idOf: M -> Id, queues: map<Id, seq<M>>, ops: seq<Operation<M>>): map<Id, seq<M>> {
    if ops == [] then queues else Effect(idOf, After(idOf, queues, ops[..|ops| - 1]), ops[|ops| - 1])
  }

  function SentBy<M>(op: Operation<M>, receiver: Id): seq<M> {
    if op.Send? && op.target == receiver then [op.message] else []
  }

  /** Everything ever sent to a receiver, in order. */
  function SentTo<M>(ops: seq<Operation<M>>, receiver: Id): seq<M> {
    if ops == [] then [] else SentTo(ops[..|ops| - 1], receiver) + SentBy(ops[|ops| - 1], receiver)
  }

  predicate AckedIn<M>(ops: seq<Operation<M>>, receiver: Id, id: Id) {
    exists i :: 0 <= i < |ops| && ops[i] == Ack(receiver, id)
  }

  function NeverAcked<M(!new)>(idOf: M -> Id, ops: seq<Operation<M>>, receiver: Id): M -> bool {
    (m: M) => !AckedIn(ops, receiver, idOf(m))
  }

  lemma {:induction false} RemovalKeepsOthers<M(!new)>(idOf: M -> Id, p: M -> bool, queue: seq<M>, id: Id)
    requires forall m :: p(m) ==> idOf(m) != id
    ensures Filter(p, RemoveFirst(idOf, queue, id)) == Filter(p, queue)
    decreases |queue|
  {
    if queue != [] {
      assert queue == [queue[0]] + queue[1..];
      FilterConcat(p, [queue[0]], queue[1..]);
      if idOf(queue[0]) == id {
        assert Filter(p, [queue[0]]) == [] by { assert [queue[0]][..0] == []; }
      } else {
        RemovalKeepsOthers(idOf, p, queue[1..], id);
        FilterConcat(p, [queue[0]], RemoveFirst(idOf, queue[1..], id));
      }
    }
  }

  lemma OneOperation<M(!new)>(idOf: M -> Id, queues: map<Id, seq<M>>, op: Operation<M>, receiver: Id, p: M -> bool)
    requires op.Ack? && op.receiver == receiver ==> forall m :: p(m) ==> idOf(m) != op.id
    ensures Filter(p, QueueIn(Effect(idOf, queues, op), receiver))
         == Filter(p, QueueIn(queues, receiver)) + Filter(p, SentBy(op, receiver))
  {
    var before := QueueIn(queues, receiver);
    match op
    case Send(target, message) =>
      FilterConcat(p, before, SentBy(op, receiver));
      assert before + [] == before;
    case Poll(_) =>
    case Ack(r, id) =>
      if r == receiver {
        RemovalKeepsOthers(idOf, p, before, id);
      }
  }

  lemma EarlierUnacked<M(!new)>(idOf: M -> Id, ops: seq<Operation<M>>, receiver: Id, p: M -> bool)
    requires ops != [] && forall m :: p(m) ==> !AckedIn(ops, receiver, idOf(m))
    ensures forall m :: p(m) ==> !AckedIn(ops[..|ops| - 1], receiver, idOf(m))
    ensures var op := ops[|ops| - 1]; op.Ack? && op.receiver == receiver ==> forall m :: p(m) ==> idOf(m) != op.id
  {
    forall m | p(m) ensures !AckedIn(ops[..|ops| - 1], receiver, idOf(m)) {
      assert !AckedIn(ops, receiver, idOf(m));
    }
    var op := ops[|ops| - 1];
    if op.Ack? && op.receiver == receiver {
      forall m | p(m) ensures idOf(m) != op.id {
        assert !AckedIn(ops, receiver, idOf(m));
      }
    }
  }

  lemma SentOneMore<M>(start: seq<M>, ops: seq<Operation<M>>, receiver: Id)
    requires ops != []
    ensures start + SentTo(ops, receiver) == start + SentTo(ops[..|ops| - 1], receiver) + SentBy(ops[|ops| - 1], receiver)
  {
  }

  lemma KeptOneMore<M>(p: M -> bool, after: seq<M>, before: seq<M>, sent: seq<M>, more: seq<M>)
    requires Filter(p, before) == Filter(p, sent) && Filter(p, after) == Filter(p, before) + Filter(p, more)
    ensures Filter(p, after) == Filter(p, sent + more)
  {
    FilterConcat(p, sent, more);
  }

  /**
   Messages leave a queue only by an ack of their id: over every history, what was queued or sent
   and never acked is still queued, as often as it was sent and in the order it was sent.
   */
  lemma {:induction false} LeavesOnlyByAck<M(!new)>(idOf: M -> Id, queues: map<Id, seq<M>>, ops: seq<Operation<M>>, receiver: Id, p: M -> bool)
    requires forall m :: p(m) ==> !AckedIn(ops, receiver, idOf(m))
    ensures Filter(p, QueueIn(After(idOf, queues, ops), receiver)) == Filter(p, QueueIn(queues, receiver) + SentTo(ops, receiver))
    decreases |ops|
  {
    var start := QueueIn(queues, receiver);
    if ops == [] {
      assert start + SentTo(ops, receiver) == start;
    } else {
      var init, op := ops[..|ops| - 1], ops[|ops| - 1];
      EarlierUnacked(idOf, ops, receiver, p);
      LeavesOnlyByAck(idOf, queues, init, receiver, p);
      OneOperation(idOf, After(idOf, queues, init), op, receiver, p);
      SentOneMore(start, ops, receiver);
      KeptOneMore(p, QueueIn(Effect(idOf, After(idOf, queues, init), op), receiver), QueueIn(After(idOf, queues, init), receiver),
                  start + SentTo(init, receiver), SentBy(op, receiver));
    }
  }

  lemma KeptMember<M>(p: M -> bool, before: seq<M>, after: seq<M>, m: M)
    requires Filter(p, after) == Filter(p, before) && m in before && p(m)
    ensures m in after
  {
    FilterHolds(p, before, m);
    FilterHolds(p, after, m);
  }

  /** In particular a message nobody acked is there to be polled again. */
  lemma UnackedStays<M(!new)>(idOf: M -> Id, ops: seq<Operation<M>>, receiver: Id, m: M)
    requires m in SentTo(ops, receiver) && !AckedIn(ops, receiver, idOf(m))
    ensures m in QueueIn(After(idOf, map[], ops), receiver)
  {
    var p := NeverAcked(idOf, ops, receiver);
    LeavesOnlyByAck(idOf, map[], ops, receiver, p);
    assert [] + SentTo(ops, receiver) == SentTo(ops, receiver);
    KeptMember(p, SentTo(ops, receiver), QueueIn(After(idOf, map[], ops), receiver), m);
  }

  /**
   An ack meant for the i-th message takes that one off the queue if and only if no earlier message
   shares its id. (Equal messages are one: which copy goes cannot be told.)
   */
  lemma {:induction false} AckTakesItsOwnExactlyWhen<M>(idOf: M -> Id, queue: seq<M>, i: nat)
    requires i < |queue| && forall j :: 0 <= j < i ==> queue[j] != queue[i]
    ensures RemoveFirst(idOf, queue, idOf(queue[i])) == queue[..i] + queue[i + 1..]
       <==> forall j :: 0 <= j < i ==> idOf(queue[j]) != idOf(queue[i])
  {
    if i == 0 || idOf(queue[0]) == idOf(queue[i]) {
      AckTakesTheFirst(idOf, queue, i);
    } else {
      var rest := queue[1..];
      assert forall j :: 0 <= j < i - 1 ==> rest[j] == queue[j + 1];
      AckTakesItsOwnExactlyWhen(idOf, rest, i - 1);
      assert queue[..i] + queue[i + 1..] == [queue[0]] + (rest[..i - 1] + rest[i..]);
      var removed := RemoveFirst(idOf, rest, idOf(queue[i]));
      assert ([queue[0]] + removed)[1..] == removed && ([queue[0]] + (rest[..i - 1] + rest[i..]))[1..] == rest[..i - 1] + rest[i..];
      assert (forall j :: 0 <= j < i ==> idOf(queue[j]) != idOf(queue[i])) <==> forall j :: 0 <= j < i - 1 ==> idOf(rest[j]) != idOf(rest[i - 1]) by {
        assert forall j :: 0 < j < i ==> queue[j] == rest[j - 1];
      }
    }
  }

  lemma AckTakesTheFirst<M>(idOf: M -> Id, queue: seq<M>, i: nat)
    requires i < |queue| && idOf(queue[0]) == idOf(queue[i]) && (i > 0 ==> queue[0] != queue[i])
    requires forall j :: 0 <= j < i ==> queue[j] != queue[i]
    ensures RemoveFirst(idOf, queue, idOf(queue[i])) == queue[..i] + queue[i + 1..] <==> i == 0
  {
    if i == 0 {
      assert queue[..0] + queue[1..] == queue[1..];
    } else {
      assert queue[1..][i - 1] == queue[i] && (queue[..i] + queue[i + 1..])[i - 1] == queue[i - 1];
    }
  }

  /** With two messages under one id an ack meant for the later removes the earlier. */
  lemma SharedIdLosesTheFirst<M>(idOf: M -> Id, first: M, second: M)
    requires idOf(first) == idOf(second) && first != second
    ensures first !in RemoveFirst(idOf, [first, second], idOf(second)) && second in RemoveFirst(idOf, [first, second], idOf(second))
  {
  }

  lemma {:induction false} RemoveOne<M>(idOf: M -> Id, queue: seq<M>, message: M)
    requires message in queue && forall m :: m in queue && idOf(m) == idOf(message) ==> m == message
    ensures multiset(queue) == multiset(RemoveFirst(idOf, queue, idOf(message))) + multiset{message}
  {
    assert queue == [queue[0]] + queue[1..];
    if idOf(queue[0]) != idOf(message) {
      RemoveOne(idOf, queue[1..], message);
    } else {
      assert queue[0] in queue;
    }
  }
}
