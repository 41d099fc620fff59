/**
 The route a result is posted to looks at the status, waits for the body, and applies what it read
 without looking again. Anything may happen to the record in between.
 */
module ResultRoute {
  import opened CallerLifecycle
  import opened CallerRequests
  import opened Collections
  import opened Results

  /** A record and the number of posts that found it open and still wait for their body. */
  datatype Routed = Routed(record: Record, reading: nat)

  datatype Move =
    | Whole(step: Step)
    | Check
    | Late(body: ResultPackage, attachments: seq<Attachment>)

  function Next(crypto: Crypto, config: CallerConfig, s: Routed, move: Move): Routed {
    match move
    case Whole(step) => s.(record := Apply(crypto, config, s.record, step))
    case Check => if Terminal(s.record.status) then s else s.(reading := s.reading + 1)
    case Late(body, attachments) =>
      if s.reading == 0 then s else Routed(ApplyResultPackage(crypto, s.record, body, attachments), s.reading - 1)
  }

  function After(crypto: Crypto, config: CallerConfig, s: Routed, moves: seq<Move>): Routed
    decreases |moves|
  {
    if moves == [] then s else After(crypto, config, Next(crypto, config, s, moves[0]), moves[1..])
  }

  lemma OneMore(crypto: Crypto, config: CallerConfig, s: Routed, move: Move, rest: seq<Move>)
    ensures After(crypto, config, s, [move] + rest) == After(crypto, config, Next(crypto, config, s, move), rest)
  {
    assert ([move] + rest)[1..] == rest;
  }

  ghost predicate Kept(crypto: Crypto, config: CallerConfig, s: Routed, moves: seq<Move>) {
    var r := After(crypto, config, s, moves).record;
    r.status == s.record.status && r.resultPackage == s.record.resultPackage
  }

  lemma OneMoveKept(crypto: Crypto, config: CallerConfig, s: Routed, move: Move)
    requires Terminal(s.record.status) && (move.Late? ==> s.reading == 0)
    ensures var s' := Next(crypto, config, s, move);
            s'.reading == s.reading && s'.record.status == s.record.status && s'.record.resultPackage == s.record.resultPackage
  {
  }

  lemma {:induction false} NobodyReading(crypto: Crypto, config: CallerConfig, s: Routed, moves: seq<Move>)
    requires Terminal(s.record.status) && s.reading == 0
    ensures Kept(crypto, config, s, moves)
    decreases |moves|
  {
    if moves != [] {
      OneMoveKept(crypto, config, s, moves[0]);
      NobodyReading(crypto, config, Next(crypto, config, s, moves[0]), moves[1..]);
    }
  }

  function Naming(requestId: Id): ResultPackage {
    ResultPackage(requestId, None, None, None, None, Ok, None, [], None, None, None, None)
  }

  /** Of two packages one is not the package the record holds, and applying it replaces that. */
  lemma LateReplaces(crypto: Crypto, config: CallerConfig, s: Routed) returns (moves: seq<Move>)
    requires s.reading > 0
    ensures !Kept(crypto, config, s, moves)
  {
    var body := if s.record.resultPackage == Some(Naming("a")) then Naming("b") else Naming("a");
    moves := [Late(body, [])];
    var s' := Next(crypto, config, s, Late(body, []));
    OneMore(crypto, config, s, Late(body, []), []);
    assert moves == [Late(body, [])] + [];
    assert After(crypto, config, s', []) == s' && s'.record.resultPackage == Some(body);
  }

  /** A verdict is final, over every continuation, if and only if no post that found the request open still waits for its body. */
  lemma FinalExactlyWhen(crypto: Crypto, config: CallerConfig, s: Routed)
    requires Terminal(s.record.status)
    ensures (forall moves :: Kept(crypto, config, s, moves)) <==> s.reading == 0
  {
    if s.reading == 0 {
      forall moves ensures Kept(crypto, config, s, moves) {
        NobodyReading(crypto, config, s, moves);
      }
    } else {
      var moves := LateReplaces(crypto, config, s);
    }
  }

  /** No body is applied to a request that was settled while the route waited for it. */
  ghost predicate Prompt(crypto: Crypto, config: CallerConfig, s: Routed, moves: seq<Move>)
    decreases |moves|
  {
    moves != [] ==>
      && (moves[0].Late? && s.reading > 0 ==> !Terminal(s.record.status))
      && Prompt(crypto, config, Next(crypto, config, s, moves[0]), moves[1..])
  }

  lemma PromptMoveKept(crypto: Crypto, config: CallerConfig, s: Routed, moves: seq<Move>)
    requires moves != [] && Prompt(crypto, config, s, moves) && Terminal(s.record.status)
    ensures var s' := Next(crypto, config, s, moves[0]);
            s'.record.status == s.record.status && s'.record.resultPackage == s.record.resultPackage
  {
  }

  /** In prompt runs every verdict is final, from the moment it is reached. */
  lemma {:induction false} PromptRunsAreFinal(crypto: Crypto, config: CallerConfig, s: Routed, moves: seq<Move>, i: nat)
    requires Prompt(crypto, config, s, moves) && i <= |moves| && Terminal(After(crypto, config, s, moves[..i]).record.status)
    ensures Kept(crypto, config, After(crypto, config, s, moves[..i]), moves[i..])
    decreases |moves|
  {
    if i > 0 {
      assert moves[..i][0] == moves[0] && moves[..i][1..] == moves[1..][..i - 1] && moves[1..][i - 1..] == moves[i..];
      PromptRunsAreFinal(crypto, config, Next(crypto, config, s, moves[0]), moves[1..], i - 1);
    } else if moves != [] {
      assert moves[..0] == [] && moves[0..] == moves;
      PromptMoveKept(crypto, config, s, moves);
      var s' := Next(crypto, config, s, moves[0]);
      assert moves[1..][..0] == [] && moves[1..][0..] == moves[1..];
      PromptRunsAreFinal(crypto, config, s', moves[1..], 0);
    }
  }

  /** It happens: a post finds the request open, the hard timeout ends it, and then the body arrives and it succeeds. */
  lemma TimedOutThenSucceeded(crypto: Crypto)
    ensures var s := Routed(NewRecord("req", None, None, None, None, None, 120, None, 90, 300, 0), 0);
            var moves := [Check, Whole(Step(Evaluate, 300000)), Late(Naming("req"), [])];
            && After(crypto, CallerConfig(true, true), s, moves[..2]).record.status == TimedOut
            && After(crypto, CallerConfig(true, true), s, moves).record.status == Succeeded
  {
    var config := CallerConfig(true, true);
    var s := Routed(NewRecord("req", None, None, None, None, None, 120, None, 90, 300, 0), 0);
    var timeout, late := Whole(Step(Evaluate, 300000)), Late(Naming("req"), []);
    var s1 := Next(crypto, config, s, Check);
    var s2 := Next(crypto, config, s1, timeout);
    var s3 := Next(crypto, config, s2, late);
    assert s2.record.status == TimedOut && s3.record.status == Succeeded;
    assert [Check, timeout, late] == [Check] + ([timeout] + ([late] + [])) && [Check, timeout, late][..2] == [Check] + ([timeout] + []);
    OneMore(crypto, config, s, Check, [timeout] + ([late] + []));
    OneMore(crypto, config, s1, timeout, [late] + []);
    OneMore(crypto, config, s2, late, []);
    OneMore(crypto, config, s, Check, [timeout] + []);
    OneMore(crypto, config, s1, timeout, []);
  }
}
