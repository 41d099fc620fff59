/**
 The append-only execution journal. An attempt is open from its start row until a closing
 row with the same attempt id lands; what is still open is what a later boot reconciles.
 */
module ExecutionJournal {
  import opened Collections

  datatype EntryType = Started | Terminal | Reconciled | Superseded

  datatype Observed = Delivered | ExecutionFailed

  datatype Entry = Entry(
    bootId: Id,
    callId: Id,
    attemptId: Id,
    entryType: EntryType,
    observed: Option<Observed>,
    recoverability: Option<string>,
    hotlineId: Option<Id>)

  /** One table holds the rows of every service that shares the database file. */
  datatype Row = Row(service: Id, entry: Entry)

  /** What the journal accepts: an entry without an identifier is refused. */
  predicate Complete(e: Entry) {
    e.bootId != "" && e.callId != "" && e.attemptId != ""
  }

  datatype AppendOutcome = Recorded(seqNo: nat) | Incomplete

  // ------------------------------------------------------------------ the query

  predicate Closes(e: Entry, attemptId: Id) {
    !e.entryType.Started? && e.attemptId == attemptId
  }

  predicate ClosedIn(journal: seq<Entry>, attemptId: Id) {
    exists i :: 0 <= i < |journal| && Closes(journal[i], attemptId)
  }

  /** The query takes an absent or empty boot id as "exclude nothing". */
  predicate Excluded(excludeBoot: Option<Id>, bootId: Id) {
    excludeBoot.Some? && excludeBoot.value != "" && bootId == excludeBoot.value
  }

  predicate OpenStart(journal: seq<Entry>, excludeBoot: Option<Id>, e: Entry) {
    e.entryType.Started? && !Excluded(excludeBoot, e.bootId) && !ClosedIn(journal, e.attemptId)
  }

  function IsInterrupted(journal: seq<Entry>, excludeBoot: Option<Id>): Entry -> bool {
    (e: Entry) => OpenStart(journal, excludeBoot, e)
  }

  /** Attempts that started and never closed, in sequence order. */
  function Interrupted(journal: seq<Entry>, excludeBoot: Option<Id>): seq<Entry> {
    Filter(IsInterrupted(journal, excludeBoot), journal)
  }

  /** A written row is reported exactly when it is a start, of another boot if one is to be left out, and no row that is not a start names its attempt. */
  lemma ReportedExactlyWhen(journal: seq<Entry>, excludeBoot: Option<Id>, e: Entry)
    ensures e in Interrupted(journal, excludeBoot) <==>
              && e in journal && e.entryType == Started
              && (excludeBoot == None || excludeBoot == Some("") || excludeBoot != Some(e.bootId))
              && forall x :: x in journal && x.attemptId == e.attemptId ==> x.entryType == Started
  {
    FilterHolds(IsInterrupted(journal, excludeBoot), journal, e);
    if x :| x in journal && x.attemptId == e.attemptId && x.entryType != Started {
      var i :| 0 <= i < |journal| && journal[i] == x;
      assert Closes(journal[i], e.attemptId);
    }
  }

  /** The entries one service wrote, in sequence order. */
  function EntriesOf(rows: seq<Row>, service: Id): seq<Entry> {
    if rows == [] then [] else
      var last := rows[|rows| - 1];
      EntriesOf(rows[..|rows| - 1], service) + (if last.service == service then [last.entry] else [])
  }

  lemma EntriesOfSnoc(rows: seq<Row>, row: Row, service: Id)
    ensures EntriesOf(rows + [row], service)
         == EntriesOf(rows, service) + (if row.service == service then [row.entry] else [])
  {
  }

  predicate ClosedInTable(rows: seq<Row>, service: Id, attemptId: Id) {
    exists i :: 0 <= i < |rows| && rows[i].service == service && Closes(rows[i].entry, attemptId)
  }

  lemma ClosedInTableSnoc(rows: seq<Row>, row: Row, service: Id, attemptId: Id)
    ensures ClosedInTable(rows + [row], service, attemptId)
       <==> ClosedInTable(rows, service, attemptId) || (row.service == service && Closes(row.entry, attemptId))
  {
    var longer := rows + [row];
    if ClosedInTable(rows, service, attemptId) {
      var i :| 0 <= i < |rows| && rows[i].service == service && Closes(rows[i].entry, attemptId);
      assert longer[i] == rows[i];
    }
    if row.service == service && Closes(row.entry, attemptId) {
      assert longer[|rows|] == row;
    }
    if ClosedInTable(longer, service, attemptId) {
      var i :| 0 <= i < |longer| && longer[i].service == service && Closes(longer[i].entry, attemptId);
      assert i < |rows| ==> rows[i] == longer[i];
    }
  }

  /** A closing row is one of the service's entries exactly when it is one of its rows. */
  lemma {:induction false} ClosedAcrossTable(rows: seq<Row>, service: Id, attemptId: Id)
    ensures ClosedIn(EntriesOf(rows, service), attemptId) <==> ClosedInTable(rows, service, attemptId)
  {
    if rows != [] {
      var init, last := rows[..|rows| - 1], rows[|rows| - 1];
      assert rows == init + [last];
      ClosedAcrossTable(init, service, attemptId);
      ClosedInTableSnoc(init, last, service, attemptId);
      EntriesOfSnoc(init, last, service);
      ClosedSnoc(EntriesOf(init, service), last.entry, attemptId);
      assert EntriesOf(init, service) + [] == EntriesOf(init, service);
    }
  }

  lemma ExtendSelection(p: Entry -> bool, rows: seq<Row>, i: nat, service: Id)
    requires i < |rows|
    ensures Filter(p, EntriesOf(rows[..i + 1], service))
         == Filter(p, EntriesOf(rows[..i], service))
            + (if rows[i].service == service && p(rows[i].entry) then [rows[i].entry] else [])
  {
    assert rows[..i + 1] == rows[..i] + [rows[i]];
    var before := EntriesOf(rows[..i], service);
    EntriesOfSnoc(rows[..i], rows[i], service);
    if rows[i].service == service {
      FilterSnoc(p, before, rows[i].entry);
    } else {
      assert before + [] == before;
    }
  }

  class Journal {
    const serviceName: Id
    var rows: seq<Row>

    constructor (serviceName: Id)
      ensures this.serviceName == serviceName && rows == []
    {
      this.serviceName := serviceName;
      rows := [];
    }

    function Entries(): seq<Entry>
      reads this
    {
      EntriesOf(rows, serviceName)
    }

    /** Appends one row, or refuses an entry with a missing identifier and writes nothing. */
    method Append(e: Entry) returns (outcome: AppendOutcome)
      modifies this
      ensures outcome == Incomplete <==> e.bootId == "" || e.callId == "" || e.attemptId == ""
      ensures !Complete(e) ==>
                outcome == Incomplete && rows == old(rows) && Entries() == old(Entries())
      ensures Complete(e) ==>
                && outcome == Recorded(|old(rows)| + 1)
                && rows == old(rows) + [Row(serviceName, e)]
                && Entries() == old(Entries()) + [e]
    {
      if e.bootId == "" || e.callId == "" || e.attemptId == "" {
        return Incomplete;
      }
      EntriesOfSnoc(rows, Row(serviceName, e), serviceName);
      rows := rows + [Row(serviceName, e)];
      outcome := Recorded(|rows|);
    }

    /** The nested query over the shared table computes `Interrupted` of this service's entries. */
    method ListInterruptedAttempts(excludeBoot: Option<Id>) returns (attempts: seq<Entry>)
      ensures attempts == Interrupted(Entries(), excludeBoot)
    {
      attempts := [];
      var i := 0;
      ghost var p := IsInterrupted(Entries(), excludeBoot);
      while i < |rows|
        invariant 0 <= i <= |rows|
        invariant attempts == Filter(p, EntriesOf(rows[..i], serviceName))
      {
        var row := rows[i];
        ExtendSelection(p, rows, i, serviceName);
        var closed := ClosedInTable(rows, serviceName, row.entry.attemptId);
        ClosedAcrossTable(rows, serviceName, row.entry.attemptId);
        if row.service == serviceName && row.entry.entryType.Started? && !Excluded(excludeBoot, row.entry.bootId) && !closed {
          attempts := attempts + [row.entry];
        }
        i := i + 1;
      }
      assert rows[..|rows|] == rows;
    }
  }

  // ------------------------------------------- the query against an incremental observer

  lemma ClosedSnoc(journal: seq<Entry>, e: Entry, attemptId: Id)
    ensures ClosedIn(journal + [e], attemptId) <==> ClosedIn(journal, attemptId) || Closes(e, attemptId)
  {
    var longer := journal + [e];
    if ClosedIn(journal, attemptId) {
      var i :| 0 <= i < |journal| && Closes(journal[i], attemptId);
      assert Closes(longer[i], attemptId);
    }
    if Closes(e, attemptId) {
      assert Closes(longer[|journal|], attemptId);
    }
    if ClosedIn(longer, attemptId) {
      var i :| 0 <= i < |longer| && Closes(longer[i], attemptId);
      assert i < |journal| ==> Closes(journal[i], attemptId);
    }
  }

  /** What an observer reading the journal row by row would remember. */
  datatype Observer = Observer(open: seq<Entry>, closed: set<Id>)

  function OtherAttempt(attemptId: Id): Entry -> bool {
    (e: Entry) => e.attemptId != attemptId
  }

  function Observe(o: Observer, e: Entry): Observer {
    if e.entryType.Started? then
      if e.attemptId in o.closed then o else o.(open := o.open + [e])
    else
      Observer(Filter(OtherAttempt(e.attemptId), o.open), o.closed + {e.attemptId})
  }

  function ObserveAll(journal: seq<Entry>): Observer {
    if journal == [] then Observer([], {}) else Observe(ObserveAll(journal[..|journal| - 1]), journal[|journal| - 1])
  }

  function FromOtherBoot(excludeBoot: Option<Id>): Entry -> bool {
    (e: Entry) => !Excluded(excludeBoot, e.bootId)
  }

  lemma {:induction false} ObserverInvariant(journal: seq<Entry>)
    ensures forall a :: a in ObserveAll(journal).closed <==> ClosedIn(journal, a)
    ensures ObserveAll(journal).open == Interrupted(journal, None)
  {
    if journal != [] {
      var init, e := journal[..|journal| - 1], journal[|journal| - 1];
      assert journal == init + [e];
      ObserverInvariant(init);
      forall a { ClosedSnoc(init, e, a); }
      var p, q := IsInterrupted(journal, None), IsInterrupted(init, None);
      FilterSnoc(p, init, e);
      if e.entryType.Started? {
        FilterCongruent(p, q, init);
      } else {
        FilterTwice(OtherAttempt(e.attemptId), q, p, init);
      }
    }
  }

  /** The query returns, in sequence order, exactly the other-boot attempts the observer still holds open. */
  lemma QueryRefinesObserver(journal: seq<Entry>, excludeBoot: Option<Id>)
    ensures Interrupted(journal, excludeBoot) == Filter(FromOtherBoot(excludeBoot), ObserveAll(journal).open)
  {
    ObserverInvariant(journal);
    FilterTwice(FromOtherBoot(excludeBoot), IsInterrupted(journal, None), IsInterrupted(journal, excludeBoot), journal);
  }

  lemma ClosedExtends(journal: seq<Entry>, later: seq<Entry>, attemptId: Id)
    requires ClosedIn(journal, attemptId)
    ensures ClosedIn(journal + later, attemptId)
  {
    var i :| 0 <= i < |journal| && Closes(journal[i], attemptId);
    assert Closes((journal + later)[i], attemptId);
  }

  /** Once closed, an attempt is never reported again, whatever is appended: not even a second start reopens it. */
  lemma ClosedStaysClosed(journal: seq<Entry>, later: seq<Entry>, excludeBoot: Option<Id>, e: Entry)
    requires ClosedIn(journal, e.attemptId)
    ensures e !in Interrupted(journal + later, excludeBoot)
  {
    ClosedExtends(journal, later, e.attemptId);
    FilterMembers(IsInterrupted(journal + later, excludeBoot), journal + later);
  }

  /** Appending can only shrink what is open among the rows already written. */
  lemma OpenOnlyShrinks(journal: seq<Entry>, later: seq<Entry>, excludeBoot: Option<Id>, e: Entry)
    requires e in journal && e in Interrupted(journal + later, excludeBoot)
    ensures e in Interrupted(journal, excludeBoot)
  {
    FilterMembers(IsInterrupted(journal + later, excludeBoot), journal + later);
    FilterMembers(IsInterrupted(journal, excludeBoot), journal);
    if ClosedIn(journal, e.attemptId) {
      ClosedExtends(journal, later, e.attemptId);
    }
  }
}
