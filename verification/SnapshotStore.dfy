/** The snapshot table: whatever a service saved last is what it loads, and services do not disturb each other. */
module SnapshotStore {
  import opened Collections
  import opened ResponderState

  datatype SnapshotRow = SnapshotRow(service: Id, state: State)

  /** The newest row of a service. */
  function LastOf(rows: seq<SnapshotRow>, service: Id): Option<State> {
    if rows == [] then None
    else if rows[|rows| - 1].service == service then Some(rows[|rows| - 1].state)
    else LastOf(rows[..|rows| - 1], service)
  }

  function OtherService(service: Id): SnapshotRow -> bool {
    (row: SnapshotRow) => row.service != service
  }

  /** One save: the service's rows are deleted and the new one is inserted, in one transaction. */
  function Saved(rows: seq<SnapshotRow>, row: SnapshotRow): seq<SnapshotRow> {
    Filter(OtherService(row.service), rows) + [row]
  }

  lemma {:induction false} DeletionSpares(rows: seq<SnapshotRow>, deleted: Id, service: Id)
    ensures LastOf(Filter(OtherService(deleted), rows), service) == if service == deleted then None else LastOf(rows, service)
  {
    if rows != [] {
      var init, last := rows[..|rows| - 1], rows[|rows| - 1];
      DeletionSpares(init, deleted, service);
      var kept := Filter(OtherService(deleted), init);
      if last.service != deleted {
        assert Filter(OtherService(deleted), rows) == kept + [last];
        assert (kept + [last])[..|kept|] == kept;
      } else {
        assert Filter(OtherService(deleted), rows) == kept;
      }
    }
  }

  lemma SaveReplaces(rows: seq<SnapshotRow>, row: SnapshotRow, service: Id)
    ensures LastOf(Saved(rows, row), service) == if service == row.service then Some(row.state) else LastOf(rows, service)
  {
    var kept := Filter(OtherService(row.service), rows);
    DeletionSpares(rows, row.service, service);
    assert (kept + [row])[..|kept|] == kept;
  }

  class Store {
    const serviceName: Id
    var rows: seq<SnapshotRow>

    constructor (serviceName: Id)
      ensures this.serviceName == serviceName && rows == []
    {
      this.serviceName, rows := serviceName, [];
    }

    function Latest(): Option<State>
      reads this
    {
      LastOf(rows, serviceName)
    }

    method Save(state: State)
      modifies this
      ensures Latest() == Some(state)
      ensures rows == Saved(old(rows), SnapshotRow(serviceName, state))
    {
      SaveReplaces(rows, SnapshotRow(serviceName, state), serviceName);
      rows := Filter(OtherService(serviceName), rows) + [SnapshotRow(serviceName, state)];
    }

    method Load() returns (state: Option<State>)
      ensures state == Latest()
    {
      var i := |rows|;
      assert rows[..i] == rows;
      while i > 0
        invariant 0 <= i <= |rows|
        invariant LastOf(rows[..i], serviceName) == LastOf(rows, serviceName)
      {
        assert rows[..i][..i - 1] == rows[..i - 1];
        if rows[i - 1].service == serviceName {
          return Some(rows[i - 1].state);
        }
        i := i - 1;
      }
      return None;
    }
  }

  function SavedAll(rows: seq<SnapshotRow>, writes: seq<SnapshotRow>): seq<SnapshotRow> {
    if writes == [] then rows else Saved(SavedAll(rows, writes[..|writes| - 1]), writes[|writes| - 1])
  }

  /** Over any interleaving of services: a load returns the service's last write, or what was there before. */
  lemma {:induction false} LastWriteWins(rows: seq<SnapshotRow>, writes: seq<SnapshotRow>, service: Id)
    ensures LastOf(SavedAll(rows, writes), service)
         == if LastOf(writes, service).Some? then LastOf(writes, service) else LastOf(rows, service)
    decreases |writes|
  {
    if writes != [] {
      LastWriteWins(rows, writes[..|writes| - 1], service);
      SaveReplaces(SavedAll(rows, writes[..|writes| - 1]), writes[|writes| - 1], service);
    }
  }
}
