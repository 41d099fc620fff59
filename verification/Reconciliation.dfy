/**
 One reconciliation pass over the attempts a dead process left open: each is re-run, reported or
 left for the next boot, and the journal afterwards holds open exactly what was left.
 */
module Reconciliation {
  import opened AttemptDiscipline
  import opened CalmRuns
  import opened Collections
  import opened ExecutionJournal
  import opened ResponderState
  import opened ResponderTasks
  import opened ResponderWorld

  /** The state, the rows and the three lists a pass produces. */
  datatype Pass = Pass(state: State, rows: seq<Entry>, rerun: seq<Entry>, reported: seq<Entry>, unreported: seq<Entry>)

  function Resolve(cfg: Config, bootId: Id, p: Pass, e: Entry, answer: Answer, newAttempt: Id): Pass {
    var d := Decide(cfg, p.state, e, answer);
    Pass(
      AfterDecision(p.state, e, d, newAttempt),
      p.rows + DecisionEntries(bootId, e, d),
      if d.Rerun? then p.rerun + [e] else p.rerun,
      if d.Reported? then p.reported + [e] else p.reported,
      if d.Unreported? then p.unreported + [e] else p.unreported)
  }

  /** `answers` is what the platform would say to the i-th report, `newAttempts` the supply of identifiers. */
  function ReconcileAll(cfg: Config, bootId: Id, s: State, attempts: seq<Entry>, answers: nat -> Answer, newAttempts: nat -> Id): Pass {
    if attempts == [] then Pass(s, [], [], [], []) else
      var i := |attempts| - 1;
      Resolve(cfg, bootId, ReconcileAll(cfg, bootId, s, attempts[..i], answers, newAttempts), attempts[i], answers(i), newAttempts(i))
  }

  // ------------------------------------------------------------------------- partition

  /** Every inspected attempt lands in exactly one list. */
  lemma {:induction false} PassPartitions(cfg: Config, bootId: Id, s: State, attempts: seq<Entry>, answers: nat -> Answer, newAttempts: nat -> Id)
    ensures var p := ReconcileAll(cfg, bootId, s, attempts, answers, newAttempts);
            && |attempts| == |p.rerun| + |p.reported| + |p.unreported|
            && multiset(attempts) == multiset(p.rerun) + multiset(p.reported) + multiset(p.unreported)
    decreases |attempts|
  {
    if attempts != [] {
      var i := |attempts| - 1;
      assert attempts == attempts[..i] + [attempts[i]];
      PassPartitions(cfg, bootId, s, attempts[..i], answers, newAttempts);
      OneLandsOnce(cfg, bootId, ReconcileAll(cfg, bootId, s, attempts[..i], answers, newAttempts), attempts[i], answers(i), newAttempts(i));
    }
  }

  lemma OneLandsOnce(cfg: Config, bootId: Id, init: Pass, e: Entry, answer: Answer, newAttempt: Id)
    ensures var p := Resolve(cfg, bootId, init, e, answer, newAttempt);
            && |p.rerun| + |p.reported| + |p.unreported| == |init.rerun| + |init.reported| + |init.unreported| + 1
            && multiset(p.rerun) + multiset(p.reported) + multiset(p.unreported)
            == multiset(init.rerun) + multiset(init.reported) + multiset(init.unreported) + multiset{e}
  {
  }

  /** Only attempts whose recorded class may auto-rerun are re-run, and only reports the protocol allows and the platform took are reported. */
  lemma {:induction false} PassIsJustified(cfg: Config, bootId: Id, s: State, attempts: seq<Entry>, answers: nat -> Answer, newAttempts: nat -> Id)
    ensures var p := ReconcileAll(cfg, bootId, s, attempts, answers, newAttempts);
            && (forall e :: e in p.rerun ==> cfg.hasExecutor && exists hotline: Id :: cfg.mayAutoRerun(hotline, e.recoverability))
            && (forall e :: e in p.reported ==> cfg.reportValid(e) && exists i: nat :: i < |attempts| && attempts[i] == e && answers(i).Accepted?)
    decreases |attempts|
  {
    if attempts != [] {
      var i := |attempts| - 1;
      PassIsJustified(cfg, bootId, s, attempts[..i], answers, newAttempts);
      var init := ReconcileAll(cfg, bootId, s, attempts[..i], answers, newAttempts);
      var p := ReconcileAll(cfg, bootId, s, attempts, answers, newAttempts);
      forall e | e in p.reported
        ensures cfg.reportValid(e) && exists k: nat :: k < |attempts| && attempts[k] == e && answers(k).Accepted?
      {
        if e in init.reported {
          var k: nat :| k < i && attempts[..i][k] == e && answers(k).Accepted?;
          assert attempts[k] == e;
        }
      }
    }
  }

  // ------------------------------------------------------------- what remains open after it

  predicate ClosedBy(rows: seq<Entry>, attemptId: Id) {
    exists r :: r in rows && Closes(r, attemptId)
  }

  function StaysOpen(rows: seq<Entry>): Entry -> bool {
    (e: Entry) => !ClosedBy(rows, e.attemptId)
  }

  lemma ClosedAfter(journal: seq<Entry>, rows: seq<Entry>, attemptId: Id)
    ensures ClosedIn(journal + rows, attemptId) <==> ClosedIn(journal, attemptId) || ClosedBy(rows, attemptId)
  {
    var longer := journal + rows;
    if ClosedIn(longer, attemptId) {
      var i :| 0 <= i < |longer| && Closes(longer[i], attemptId);
      if i < |journal| {
        assert Closes(journal[i], attemptId);
      } else {
        assert rows[i - |journal|] in rows;
      }
    }
    if ClosedIn(journal, attemptId) {
      ClosedExtends(journal, rows, attemptId);
    }
    if ClosedBy(rows, attemptId) {
      var r :| r in rows && Closes(r, attemptId);
      assert r in longer;
      var i :| 0 <= i < |longer| && longer[i] == r;
    }
  }

  /** Whatever closing rows reach the journal, the query afterwards is the query before, less the attempts they close. */
  lemma ClosingRowsClose(journal: seq<Entry>, rows: seq<Entry>, excludeBoot: Option<Id>)
    requires forall r :: r in rows ==> !r.entryType.Started?
    ensures Interrupted(journal + rows, excludeBoot) == Filter(StaysOpen(rows), Interrupted(journal, excludeBoot))
    ensures |Interrupted(journal + rows, excludeBoot)| <= |Interrupted(journal, excludeBoot)|
  {
    var after, before := IsInterrupted(journal + rows, excludeBoot), IsInterrupted(journal, excludeBoot);
    FilterConcat(after, journal, rows);
    FilterNone(after, rows);
    assert Filter(after, journal) + [] == Filter(after, journal);
    forall e | e in journal ensures after(e) == (StaysOpen(rows)(e) && before(e)) {
      ClosedAfter(journal, rows, e.attemptId);
    }
    FilterTwice(StaysOpen(rows), before, after, journal);
    FilterMembers(StaysOpen(rows), Interrupted(journal, excludeBoot));
  }

  /** The rows of a pass close an attempt exactly when some occurrence of it was re-run or reported. */
  lemma {:induction false} PassRows(cfg: Config, bootId: Id, s: State, attempts: seq<Entry>, answers: nat -> Answer, newAttempts: nat -> Id)
    ensures var p := ReconcileAll(cfg, bootId, s, attempts, answers, newAttempts);
            && (forall r :: r in p.rows ==> !r.entryType.Started? && r.bootId == bootId)
            && (forall r :: r in p.rows ==> exists e :: e in attempts && e.callId == r.callId && e.attemptId == r.attemptId)
            && (forall a :: ClosedBy(p.rows, a) <==> exists e :: e in p.rerun + p.reported && e.attemptId == a)
    decreases |attempts|
  {
    if attempts != [] {
      var i := |attempts| - 1;
      var e := attempts[i];
      var init := ReconcileAll(cfg, bootId, s, attempts[..i], answers, newAttempts);
      var p := ReconcileAll(cfg, bootId, s, attempts, answers, newAttempts);
      PassRows(cfg, bootId, s, attempts[..i], answers, newAttempts);
      var d := Decide(cfg, init.state, e, answers(i));
      forall r | r in p.rows ensures exists x :: x in attempts && x.callId == r.callId && x.attemptId == r.attemptId {
        if r in init.rows {
          var x :| x in attempts[..i] && x.callId == r.callId && x.attemptId == r.attemptId;
        } else {
          assert e in attempts;
        }
      }
      forall a ensures ClosedBy(p.rows, a) <==> exists x :: x in p.rerun + p.reported && x.attemptId == a {
        RowsOfOne(bootId, init, p, e, d, a);
      }
    }
  }

  lemma RowsOfOne(bootId: Id, init: Pass, p: Pass, e: Entry, d: Decision, a: Id)
    requires p.rows == init.rows + DecisionEntries(bootId, e, d)
    requires p.rerun == if d.Rerun? then init.rerun + [e] else init.rerun
    requires p.reported == if d.Reported? then init.reported + [e] else init.reported
    requires ClosedBy(init.rows, a) <==> exists x :: x in init.rerun + init.reported && x.attemptId == a
    ensures ClosedBy(p.rows, a) <==> exists x :: x in p.rerun + p.reported && x.attemptId == a
  {
    if ClosedBy(p.rows, a) {
      var r :| r in p.rows && Closes(r, a);
      if r in init.rows {
        assert ClosedBy(init.rows, a);
        var x :| x in init.rerun + init.reported && x.attemptId == a;
        assert x in p.rerun + p.reported;
      } else {
        assert e in p.rerun + p.reported;
      }
    }
    if x :| x in p.rerun + p.reported && x.attemptId == a {
      if x in init.rerun + init.reported {
        var r :| r in init.rows && Closes(r, a);
        assert r in p.rows;
      } else {
        assert Closes(DecisionEntries(bootId, e, d)[0], a);
        assert DecisionEntries(bootId, e, d)[0] in p.rows;
      }
    }
  }

  ghost predicate DistinctAttempts(attempts: seq<Entry>) {
    forall i, j :: 0 <= i < j < |attempts| ==> attempts[i].attemptId != attempts[j].attemptId
  }

  lemma OneMoreUnreported(bootId: Id, rows: seq<Entry>, attempts: seq<Entry>, e: Entry, d: Decision)
    requires !ClosedBy(rows, e.attemptId) && forall x :: x in attempts ==> x.attemptId != e.attemptId
    ensures Filter(StaysOpen(rows + DecisionEntries(bootId, e, d)), attempts + [e])
         == Filter(StaysOpen(rows), attempts) + (if d.Unreported? then [e] else [])
  {
    var more := rows + DecisionEntries(bootId, e, d);
    forall x | x in attempts ensures ClosedBy(more, x.attemptId) == ClosedBy(rows, x.attemptId) {
      if r :| r in rows && Closes(r, x.attemptId) {
        assert r in more;
      }
    }
    FilterCongruent(StaysOpen(more), StaysOpen(rows), attempts);
    FilterSnoc(StaysOpen(more), attempts, e);
    if !d.Unreported? {
      assert DecisionEntries(bootId, e, d)[0] in more && Closes(DecisionEntries(bootId, e, d)[0], e.attemptId);
    } else {
      assert more == rows;
    }
  }

  /** With one start row per attempt, what no row closes is what was not reported. */
  lemma {:induction false} UnreportedStays(cfg: Config, bootId: Id, s: State, attempts: seq<Entry>, answers: nat -> Answer, newAttempts: nat -> Id)
    requires DistinctAttempts(attempts)
    ensures var p := ReconcileAll(cfg, bootId, s, attempts, answers, newAttempts); Filter(StaysOpen(p.rows), attempts) == p.unreported
    decreases |attempts|
  {
    if attempts != [] {
      var i := |attempts| - 1;
      var init, e := ReconcileAll(cfg, bootId, s, attempts[..i], answers, newAttempts), attempts[i];
      UnreportedStays(cfg, bootId, s, attempts[..i], answers, newAttempts);
      NotClosedYet(cfg, bootId, s, attempts[..i], answers, newAttempts, e.attemptId);
      OneMoreUnreported(bootId, init.rows, attempts[..i], e, Decide(cfg, init.state, e, answers(i)));
      assert attempts == attempts[..i] + [e];
    }
  }

  lemma NotClosedYet(cfg: Config, bootId: Id, s: State, attempts: seq<Entry>, answers: nat -> Answer, newAttempts: nat -> Id, a: Id)
    requires forall x :: x in attempts ==> x.attemptId != a
    ensures !ClosedBy(ReconcileAll(cfg, bootId, s, attempts, answers, newAttempts).rows, a)
  {
    PassRows(cfg, bootId, s, attempts, answers, newAttempts);
  }

  ghost predicate AllComplete(journal: seq<Entry>) {
    forall e :: e in journal ==> Complete(e)
  }

  lemma PassRowsAreRecordable(cfg: Config, bootId: Id, s: State, journal: seq<Entry>, answers: nat -> Answer, newAttempts: nat -> Id)
    requires bootId != "" && AllComplete(journal)
    ensures var p := ReconcileAll(cfg, bootId, s, Interrupted(journal, Some(bootId)), answers, newAttempts); Filter(Complete, p.rows) == p.rows
  {
    var attempts := Interrupted(journal, Some(bootId));
    var p := ReconcileAll(cfg, bootId, s, attempts, answers, newAttempts);
    PassRows(cfg, bootId, s, attempts, answers, newAttempts);
    FilterMembers(IsInterrupted(journal, Some(bootId)), journal);
    forall r | r in p.rows ensures Complete(r) {
      var e :| e in attempts && e.callId == r.callId && e.attemptId == r.attemptId;
      assert e in journal;
    }
    FilterAll(Complete, p.rows);
  }

  /**
   What is open after a pass whose rows were all written: of the attempts it inspected, those
   of which no occurrence was re-run or reported; exactly the unreported ones when every attempt
   started once; and never more than before.
   */
  lemma PassLeavesUnreported(cfg: Config, bootId: Id, s: State, journal: seq<Entry>, answers: nat -> Answer, newAttempts: nat -> Id)
    ensures var attempts := Interrupted(journal, Some(bootId));
            var p := ReconcileAll(cfg, bootId, s, attempts, answers, newAttempts);
            var open := Interrupted(journal + p.rows, Some(bootId));
            && (forall e :: e in open <==> e in attempts && !exists x :: x in p.rerun + p.reported && x.attemptId == e.attemptId)
            && |open| <= |attempts|
            && (DistinctAttempts(attempts) ==> open == p.unreported)
            && (p.unreported == [] ==> open == [])
  {
    var attempts := Interrupted(journal, Some(bootId));
    var p := ReconcileAll(cfg, bootId, s, attempts, answers, newAttempts);
    var open := Interrupted(journal + p.rows, Some(bootId));
    PassRows(cfg, bootId, s, attempts, answers, newAttempts);
    ClosingRowsClose(journal, p.rows, Some(bootId));
    FilterMembers(StaysOpen(p.rows), attempts);
    if DistinctAttempts(attempts) {
      UnreportedStays(cfg, bootId, s, attempts, answers, newAttempts);
    }
    if p.unreported == [] {
      PassPartitions(cfg, bootId, s, attempts, answers, newAttempts);
      forall e | e in attempts ensures e in p.rerun + p.reported {
        assert e in multiset(attempts);
        assert e in multiset(p.rerun) || e in multiset(p.reported);
      }
      FilterNone(StaysOpen(p.rows), attempts);
    }
  }

  /** When the protocol allows every report and the platform takes every one, a pass leaves nothing open. */
  lemma {:induction false} AcceptedReportsLeaveNone(cfg: Config, bootId: Id, s: State, attempts: seq<Entry>, answers: nat -> Answer, newAttempts: nat -> Id)
    requires (forall e :: e in attempts ==> cfg.reportValid(e)) && (forall i: nat :: i < |attempts| ==> answers(i).Accepted?)
    ensures ReconcileAll(cfg, bootId, s, attempts, answers, newAttempts).unreported == []
    decreases |attempts|
  {
    if attempts != [] {
      assert attempts[|attempts| - 1] in attempts;
      AcceptedReportsLeaveNone(cfg, bootId, s, attempts[..|attempts| - 1], answers, newAttempts);
    }
  }

  /** In calm runs every attempt did start once, so what a pass leaves open is exactly what it could not report. */
  lemma {:induction false} CalmAttemptsAreDistinct(cfg: Config, workers: int, steps: seq<Step>, excludeBoot: Option<Id>)
    requires Calm(cfg, InitialWorld(workers), steps)
    ensures DistinctAttempts(Interrupted(Execute(cfg, InitialWorld(workers), steps).journal, excludeBoot))
  {
    var journal := Execute(cfg, InitialWorld(workers), steps).journal;
    var attempts := Interrupted(journal, excludeBoot);
    FilterMembers(IsInterrupted(journal, excludeBoot), journal);
    forall i, j | 0 <= i < j < |attempts| ensures attempts[i].attemptId != attempts[j].attemptId {
      if attempts[i].attemptId == attempts[j].attemptId {
        var a := attempts[i].attemptId;
        DurableStateIsConsistent(cfg, workers, steps, a, "");
        assert attempts[i] in attempts && attempts[j] in attempts;
        TallyTwo(StartsAttempt(a), attempts, i, j);
        TallyFilter(StartsAttempt(a), IsInterrupted(journal, excludeBoot), journal);
      }
    }
  }

  // ------------------------------------------------------------ what becomes of the tasks

  /** The attempts a pass decided one way, in the order it took them up. */
  function Picked(attempts: seq<Entry>, fates: seq<Decision>, d: Decision): seq<Entry>
    requires |fates| == |attempts|
  {
    if attempts == [] then [] else
      var i := |attempts| - 1;
      Picked(attempts[..i], fates[..i], d) + (if fates[i] == d then [attempts[i]] else [])
  }

  /** The call of this attempt leads to the task of this id. */
  predicate Concerns(s: State, e: Entry, id: Id) {
    e.callId in s.requestIndex && s.requestIndex[e.callId] == id && id in s.tasks
  }

  predicate HasTask(s: State, e: Entry) {
    e.callId in s.requestIndex && s.requestIndex[e.callId] in s.tasks
  }

  /** The hotline whose policy decides: the one recorded with the attempt, else the task's, else none. */
  function PolicyHotline(s: State, e: Entry): Id {
    if e.hotlineId.Some? && e.hotlineId.value != "" then e.hotlineId.value
    else if HasTask(s, e) then s.tasks[s.requestIndex[e.callId]].hotlineId
    else "unknown"
  }

  /** What the rules say about one attempt, on the state the pass began with. */
  ghost predicate RightlyDecided(cfg: Config, s: State, e: Entry, answer: Answer, d: Decision) {
    && (d == Rerun <==> cfg.hasExecutor && HasTask(s, e) && cfg.mayAutoRerun(PolicyHotline(s, e), e.recoverability))
    && (d == Reported <==> d != Rerun && cfg.reportValid(e) && answer == Accepted)
  }

  /** The last attempt of this task that was re-run or reported. */
  ghost predicate LastDecided(s: State, attempts: seq<Entry>, fates: seq<Decision>, id: Id, k: nat)
    requires |fates| == |attempts|
  {
    && k < |attempts| && Concerns(s, attempts[k], id) && fates[k] != Unreported
    && forall j :: k < j < |attempts| && Concerns(s, attempts[j], id) ==> fates[j] == Unreported
  }

  ghost predicate Undecided(s: State, attempts: seq<Entry>, fates: seq<Decision>, id: Id)
    requires |fates| == |attempts|
  {
    forall j :: 0 <= j < |attempts| && Concerns(s, attempts[j], id) ==> fates[j] == Unreported
  }

  /** The last decision about a task shows in it, and nothing else of it changes. */
  ghost predicate TaskSettled(s: State, s': State, attempts: seq<Entry>, fates: seq<Decision>, newAttempts: nat -> Id, id: Id)
    requires |fates| == |attempts| && id in s.tasks && id in s'.tasks
  {
    var t, t' := s.tasks[id], s'.tasks[id];
    && t' == t.(status := t'.status, attemptId := t'.attemptId, reconciled := t'.reconciled)
    && (Undecided(s, attempts, fates, id) ==> t' == t)
    && (forall k: nat :: LastDecided(s, attempts, fates, id, k) && fates[k] == Reported ==> t'.status == TaskStatus.Failed && t'.reconciled)
    && (forall k: nat :: LastDecided(s, attempts, fates, id, k) && fates[k] == Rerun ==>
          t'.status == Queued && t'.attemptId == newAttempts(k) && t.taskId in s'.queue)
  }

  /** Only re-runs join the queue, behind what is there; table, index and workers stay. */
  ghost predicate OnlyRerunsJoin(s: State, s': State, attempts: seq<Entry>, fates: seq<Decision>)
    requires |fates| == |attempts|
  {
    && s'.tasks.Keys == s.tasks.Keys && s'.requestIndex == s.requestIndex && s'.active == s.active && s'.workers == s.workers
    && s.queue <= s'.queue
    && forall q :: q in s'.queue ==> q in s.queue || exists j, id :: 0 <= j < |attempts| && fates[j] == Rerun && Concerns(s, attempts[j], id) && s.tasks[id].taskId == q
  }

  lemma NoneConcerned(s: State, id: Id, newAttempts: nat -> Id)
    requires id in s.tasks
    ensures TaskSettled(s, s, [], [], newAttempts, id) && OnlyRerunsJoin(s, s, [], [])
  {
  }

  /** An attempt of another task, or one left unreported, settles nothing here. */
  lemma OneMorePassesBy(s: State, attempts: seq<Entry>, fates: seq<Decision>, e: Entry, d: Decision, id: Id)
    requires |fates| == |attempts| && (d == Unreported || !Concerns(s, e, id))
    ensures Undecided(s, attempts + [e], fates + [d], id) <==> Undecided(s, attempts, fates, id)
    ensures forall k: nat :: LastDecided(s, attempts + [e], fates + [d], id, k) <==> LastDecided(s, attempts, fates, id, k)
  {
    var more, moreFates := attempts + [e], fates + [d];
    assert forall j :: 0 <= j < |attempts| ==> more[j] == attempts[j] && moreFates[j] == fates[j];
    assert more[|attempts|] == e && moreFates[|attempts|] == d;
    forall k: nat ensures LastDecided(s, more, moreFates, id, k) <==> LastDecided(s, attempts, fates, id, k) {
    }
  }

  /** An attempt that is decided is the last of its task so far. */
  lemma OneMoreIsLast(s: State, attempts: seq<Entry>, fates: seq<Decision>, e: Entry, d: Decision, id: Id)
    requires |fates| == |attempts| && d != Unreported && Concerns(s, e, id)
    ensures !Undecided(s, attempts + [e], fates + [d], id)
    ensures forall k: nat :: LastDecided(s, attempts + [e], fates + [d], id, k) <==> k == |attempts|
  {
    var more, moreFates := attempts + [e], fates + [d];
    assert more[|attempts|] == e && moreFates[|attempts|] == d;
  }

  lemma OneMoreSettled(s: State, s1: State, attempts: seq<Entry>, fates: seq<Decision>, e: Entry, d: Decision, newAttempts: nat -> Id, id: Id)
    requires |fates| == |attempts| && OnlyRerunsJoin(s, s1, attempts, fates) && id in s.tasks
    requires forall x :: x in s.tasks ==> TaskSettled(s, s1, attempts, fates, newAttempts, x)
    ensures id in AfterDecision(s1, e, d, newAttempts(|attempts|)).tasks
    ensures TaskSettled(s, AfterDecision(s1, e, d, newAttempts(|attempts|)), attempts + [e], fates + [d], newAttempts, id)
  {
    assert TaskSettled(s, s1, attempts, fates, newAttempts, id);
    if d == Unreported || !Concerns(s, e, id) {
      PassedBySettled(s, s1, attempts, fates, e, d, newAttempts, id);
    } else {
      DecidedSettled(s, s1, attempts, fates, e, d, newAttempts, id);
    }
  }

  lemma PassedBySettled(s: State, s1: State, attempts: seq<Entry>, fates: seq<Decision>, e: Entry, d: Decision, newAttempts: nat -> Id, id: Id)
    requires |fates| == |attempts| && OnlyRerunsJoin(s, s1, attempts, fates) && id in s.tasks && id in s1.tasks
    requires TaskSettled(s, s1, attempts, fates, newAttempts, id) && (d == Unreported || !Concerns(s, e, id))
    ensures id in AfterDecision(s1, e, d, newAttempts(|attempts|)).tasks
    ensures TaskSettled(s, AfterDecision(s1, e, d, newAttempts(|attempts|)), attempts + [e], fates + [d], newAttempts, id)
  {
    var s2 := AfterDecision(s1, e, d, newAttempts(|attempts|));
    OneMorePassesBy(s, attempts, fates, e, d, id);
    assert forall k: nat :: LastDecided(s, attempts, fates, id, k) ==> (fates + [d])[k] == fates[k];
    assert s2.tasks[id] == s1.tasks[id] && forall q :: q in s1.queue ==> q in s2.queue;
  }

  lemma DecidedSettled(s: State, s1: State, attempts: seq<Entry>, fates: seq<Decision>, e: Entry, d: Decision, newAttempts: nat -> Id, id: Id)
    requires |fates| == |attempts| && OnlyRerunsJoin(s, s1, attempts, fates) && id in s.tasks && id in s1.tasks
    requires TaskSettled(s, s1, attempts, fates, newAttempts, id) && d != Unreported && Concerns(s, e, id)
    ensures id in AfterDecision(s1, e, d, newAttempts(|attempts|)).tasks
    ensures TaskSettled(s, AfterDecision(s1, e, d, newAttempts(|attempts|)), attempts + [e], fates + [d], newAttempts, id)
  {
    OneMoreIsLast(s, attempts, fates, e, d, id);
    assert (fates + [d])[|attempts|] == d;
  }

  lemma OneMoreJoins(s: State, s1: State, attempts: seq<Entry>, fates: seq<Decision>, e: Entry, d: Decision, newAttempts: nat -> Id)
    requires |fates| == |attempts| && OnlyRerunsJoin(s, s1, attempts, fates)
    requires forall x :: x in s.tasks ==> TaskSettled(s, s1, attempts, fates, newAttempts, x)
    ensures OnlyRerunsJoin(s, AfterDecision(s1, e, d, newAttempts(|attempts|)), attempts + [e], fates + [d])
  {
    var s2 := AfterDecision(s1, e, d, newAttempts(|attempts|));
    var more, moreFates := attempts + [e], fates + [d];
    forall q | q in s2.queue && q !in s.queue
      ensures exists j, id :: 0 <= j < |more| && moreFates[j] == Rerun && Concerns(s, more[j], id) && s.tasks[id].taskId == q
    {
      if q in s1.queue {
        var j, id :| 0 <= j < |attempts| && fates[j] == Rerun && Concerns(s, attempts[j], id) && s.tasks[id].taskId == q;
        assert more[j] == attempts[j] && moreFates[j] == Rerun;
      } else {
        var id := s.requestIndex[e.callId];
        assert TaskSettled(s, s1, attempts, fates, newAttempts, id);
        assert more[|attempts|] == e && moreFates[|attempts|] == d && Concerns(s, e, id);
      }
    }
  }

  lemma DecidedOnTheStart(cfg: Config, s: State, s1: State, attempts: seq<Entry>, fates: seq<Decision>, newAttempts: nat -> Id, e: Entry, answer: Answer)
    requires |fates| == |attempts| && OnlyRerunsJoin(s, s1, attempts, fates)
    requires forall x :: x in s.tasks ==> TaskSettled(s, s1, attempts, fates, newAttempts, x)
    ensures RightlyDecided(cfg, s, e, answer, Decide(cfg, s1, e, answer))
  {
    if HasTask(s, e) {
      assert TaskSettled(s, s1, attempts, fates, newAttempts, s.requestIndex[e.callId]);
    }
  }

  /** All of it together, for the decisions `fates`. */
  ghost predicate PassOutcome(cfg: Config, s: State, p: Pass, attempts: seq<Entry>, fates: seq<Decision>, answers: nat -> Answer, newAttempts: nat -> Id) {
    && |fates| == |attempts|
    && (forall k :: 0 <= k < |attempts| ==> RightlyDecided(cfg, s, attempts[k], answers(k), fates[k]))
    && p.rerun == Picked(attempts, fates, Rerun) && p.reported == Picked(attempts, fates, Reported)
    && p.unreported == Picked(attempts, fates, Unreported)
    && OnlyRerunsJoin(s, p.state, attempts, fates)
    && forall id :: id in s.tasks ==> TaskSettled(s, p.state, attempts, fates, newAttempts, id)
  }

  /**
   What a pass does, for every state and every list of attempts: each attempt is re-run, reported or
   left as the rules say; a task whose last decided attempt was reported is failed and marked
   reconciled, one whose last decided attempt is re-run is queued under the attempt drawn for it,
   and every other task, the table, the index and the workers stay as they were.
   */
  lemma {:induction false} PassSettlesTasks(cfg: Config, bootId: Id, s: State, attempts: seq<Entry>, answers: nat -> Answer, newAttempts: nat -> Id)
    returns (fates: seq<Decision>)
    ensures PassOutcome(cfg, s, ReconcileAll(cfg, bootId, s, attempts, answers, newAttempts), attempts, fates, answers, newAttempts)
    decreases |attempts|
  {
    if attempts == [] {
      fates := [];
      forall id | id in s.tasks ensures TaskSettled(s, s, attempts, fates, newAttempts, id) {
        NoneConcerned(s, id, newAttempts);
      }
    } else {
      var i := |attempts| - 1;
      var before := PassSettlesTasks(cfg, bootId, s, attempts[..i], answers, newAttempts);
      var init := ReconcileAll(cfg, bootId, s, attempts[..i], answers, newAttempts);
      assert attempts == attempts[..i] + [attempts[i]];
      fates := OneMoreOutcome(cfg, bootId, s, init, attempts[..i], before, answers, newAttempts, attempts[i]);
    }
  }

  lemma OneMoreOutcome(cfg: Config, bootId: Id, s: State, init: Pass, attempts: seq<Entry>, before: seq<Decision>,
                       answers: nat -> Answer, newAttempts: nat -> Id, e: Entry)
    returns (fates: seq<Decision>)
    requires PassOutcome(cfg, s, init, attempts, before, answers, newAttempts)
    ensures var p := Resolve(cfg, bootId, init, e, answers(|attempts|), newAttempts(|attempts|));
            PassOutcome(cfg, s, p, attempts + [e], fates, answers, newAttempts)
  {
    var d := Decide(cfg, init.state, e, answers(|attempts|));
    fates := before + [d];
    var more := attempts + [e];
    DecidedOnTheStart(cfg, s, init.state, attempts, before, newAttempts, e, answers(|attempts|));
    OneMoreJoins(s, init.state, attempts, before, e, d, newAttempts);
    forall id | id in s.tasks ensures TaskSettled(s, AfterDecision(init.state, e, d, newAttempts(|attempts|)), more, fates, newAttempts, id) {
      OneMoreSettled(s, init.state, attempts, before, e, d, newAttempts, id);
    }
    OneMoreDecided(cfg, s, attempts, before, answers, e, d);
    assert more[..|attempts|] == attempts && fates[..|attempts|] == before;
  }

  lemma OneMoreDecided(cfg: Config, s: State, attempts: seq<Entry>, fates: seq<Decision>, answers: nat -> Answer, e: Entry, d: Decision)
    requires |fates| == |attempts| && RightlyDecided(cfg, s, e, answers(|attempts|), d)
    requires forall k :: 0 <= k < |attempts| ==> RightlyDecided(cfg, s, attempts[k], answers(k), fates[k])
    ensures forall k :: 0 <= k < |attempts| + 1 ==> RightlyDecided(cfg, s, (attempts + [e])[k], answers(k), (fates + [d])[k])
  {
  }

  /** The rows say what was decided: a superseded row for each re-run, a reconciled one for each report. */
  ghost predicate RowSays(bootId: Id, r: Entry, e: Entry, kind: EntryType, observed: Option<Observed>) {
    r.bootId == bootId && r.callId == e.callId && r.attemptId == e.attemptId && r.recoverability == e.recoverability
    && r.entryType == kind && r.observed == observed
  }

  ghost predicate RowsSay(bootId: Id, p: Pass) {
    && |p.rows| == |p.rerun| + |p.reported|
    && (forall e :: e in p.rerun ==> exists r :: r in p.rows && RowSays(bootId, r, e, Superseded, None))
    && (forall e :: e in p.reported ==> exists r :: r in p.rows && RowSays(bootId, r, e, Reconciled, Some(ExecutionFailed)))
    && (forall r :: r in p.rows ==> (exists e :: e in p.rerun && RowSays(bootId, r, e, Superseded, None))
                                    || exists e :: e in p.reported && RowSays(bootId, r, e, Reconciled, Some(ExecutionFailed)))
  }

  lemma {:induction false} PassRowsSay(cfg: Config, bootId: Id, s: State, attempts: seq<Entry>, answers: nat -> Answer, newAttempts: nat -> Id)
    ensures var p := ReconcileAll(cfg, bootId, s, attempts, answers, newAttempts);
            RowsSay(bootId, p)
    decreases |attempts|
  {
    if attempts != [] {
      var i := |attempts| - 1;
      PassRowsSay(cfg, bootId, s, attempts[..i], answers, newAttempts);
      var init := ReconcileAll(cfg, bootId, s, attempts[..i], answers, newAttempts);
      OneMoreRowSays(bootId, init, Resolve(cfg, bootId, init, attempts[i], answers(i), newAttempts(i)), attempts[i],
                     Decide(cfg, init.state, attempts[i], answers(i)));
    }
  }

  lemma OneMoreRowSays(bootId: Id, init: Pass, p: Pass, e: Entry, d: Decision)
    requires RowsSay(bootId, init) && p.rows == init.rows + DecisionEntries(bootId, e, d)
    requires p.rerun == if d.Rerun? then init.rerun + [e] else init.rerun
    requires p.reported == if d.Reported? then init.reported + [e] else init.reported
    ensures RowsSay(bootId, p)
  {
    if d.Rerun? {
      assert SupersededEntry(bootId, e) in p.rows && RowSays(bootId, SupersededEntry(bootId, e), e, Superseded, None);
    } else if d.Reported? {
      assert ReconciledEntry(bootId, e) in p.rows && RowSays(bootId, ReconciledEntry(bootId, e), e, Reconciled, Some(ExecutionFailed));
    }
    forall r | r in p.rows
      ensures (exists x :: x in p.rerun && RowSays(bootId, r, x, Superseded, None))
              || exists x :: x in p.reported && RowSays(bootId, r, x, Reconciled, Some(ExecutionFailed))
    {
      if r !in init.rows {
        assert r == DecisionEntries(bootId, e, d)[0];
      }
    }
  }
}
