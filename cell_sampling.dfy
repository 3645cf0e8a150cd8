/**
 * The loop of `MainActivity.getCellInfo`: after the location-permission check it
 * appends the network-type header to `cellInfoText`, then for each element of
 * `allCellInfo`, in list order, inserts the item's row (recognised variants only,
 * ignoring the insert's result) and appends the item's paragraph.
 *
 * The wall clock is the parameter `clock`: `clock(i)` is the formatted time read
 * while item `i` is processed.  Storage failures are the parameter `faults`: the
 * indices of the items whose insert the database rejects.
 */
module CellSampling {
  import opened Wrappers
  import opened CellInfoDb
  import opened CellNormalizer

  /** The header appended once per run, before any item's paragraph. */
  function Header(networkType: int): (h: string)
    ensures h == "Network Type: 4G (LTE)\n\n" <==> networkType == NetworkTypeLte
    ensures h == "Network Type: 3G (HSPA)\n\n" <==> networkType in {NetworkTypeHspa, NetworkTypeHspap}
    ensures h == "Network Type: 2G (EDGE/GPRS)\n\n" <==> networkType in {NetworkTypeEdge, NetworkTypeGprs}
    ensures h == "Network Type: Unknown\n\n"
      <==> networkType !in {NetworkTypeLte, NetworkTypeHspa, NetworkTypeHspap, NetworkTypeEdge, NetworkTypeGprs}
  {
    NetworkTypeClasses(networkType);
    "Network Type: " + NetworkTypeName(networkType) + "\n\n"
  }

  /** The paragraphs of all items, in list order, whatever their inserts did. */
  function BatchText(cells: seq<Cell>, sdk: int, clock: nat -> string): string
    decreases |cells|
  {
    if cells == [] then ""
    else
      var n := |cells| - 1;
      BatchText(cells[..n], sdk, clock) + Render(cells[n], sdk, clock(n))
  }

  /** Everything one run appends to `cellInfoText`. */
  function Summary(networkType: int, cells: seq<Cell>, sdk: int, clock: nat -> string): string {
    Header(networkType) + BatchText(cells, sdk, clock)
  }

  /** The rows one item adds to the table: its row, unless it has none or the insert fails. */
  function StoredRows(cell: Cell, sdk: int, eventTime: string, storageFault: bool): seq<Row> {
    if storageFault then [] else ToSeq(Normalize(cell, sdk, eventTime))
  }

  /** The rows the table accepts, in list order. */
  function Persisted(cells: seq<Cell>, sdk: int, clock: nat -> string, faults: set<nat>): seq<Row>
    decreases |cells|
  {
    if cells == [] then []
    else
      var n := |cells| - 1;
      Persisted(cells[..n], sdk, clock, faults) + StoredRows(cells[n], sdk, clock(n), n in faults)
  }

  /** The number of LTE, WCDMA and GSM items. */
  function CountRecognised(cells: seq<Cell>): nat
    decreases |cells|
  {
    if cells == [] then 0
    else CountRecognised(cells[..|cells| - 1]) + (if Recognised(cells[|cells| - 1]) then 1 else 0)
  }

  /** The number of recognised items whose insert fails. */
  function CountRejected(cells: seq<Cell>, faults: set<nat>): nat
    decreases |cells|
  {
    if cells == [] then 0
    else
      var n := |cells| - 1;
      CountRejected(cells[..n], faults) + (if Recognised(cells[n]) && n in faults then 1 else 0)
  }

  /** The indices of the items that end up stored, in increasing order. */
  function StoredIndices(cells: seq<Cell>, faults: set<nat>): seq<nat>
    decreases |cells|
  {
    if cells == [] then []
    else
      var n := |cells| - 1;
      StoredIndices(cells[..n], faults) + (if Recognised(cells[n]) && n !in faults then [n] else [])
  }

  /** The `k`-th stored row is the row of the item at the `k`-th stored index. */
  lemma {:induction false} PersistedAtStoredIndices(
    cells: seq<Cell>, sdk: int, clock: nat -> string, faults: set<nat>)
    ensures var rows := Persisted(cells, sdk, clock, faults);
      var idx := StoredIndices(cells, faults);
      && |rows| == |idx|
      && (forall k :: 0 <= k < |idx| ==>
            && idx[k] < |cells| && Recognised(cells[idx[k]]) && idx[k] !in faults
            && rows[k] == Normalize(cells[idx[k]], sdk, clock(idx[k])).value)
    decreases |cells|
  {
    if cells != [] {
      var n := |cells| - 1;
      var init := cells[..n];
      PersistedAtStoredIndices(init, sdk, clock, faults);
      var rows0, idx0 := Persisted(init, sdk, clock, faults), StoredIndices(init, faults);
      var rows, idx := Persisted(cells, sdk, clock, faults), StoredIndices(cells, faults);
      var last := StoredRows(cells[n], sdk, clock(n), n in faults);
      assert rows == rows0 + last;
      assert idx == idx0 + (if Recognised(cells[n]) && n !in faults then [n] else []);
      forall k | 0 <= k < |idx|
        ensures idx[k] < |cells| && Recognised(cells[idx[k]]) && idx[k] !in faults
        ensures rows[k] == Normalize(cells[idx[k]], sdk, clock(idx[k])).value
      {
        if k < |idx0| {
          assert idx[k] == idx0[k] && rows[k] == rows0[k];
          assert init[idx0[k]] == cells[idx0[k]];
        } else {
          assert idx[k] == n && rows[k] == last[0];
        }
      }
    }
  }

  /** The stored indices are item positions, in strictly increasing order. */
  lemma {:induction false} StoredIndicesAscend(cells: seq<Cell>, faults: set<nat>)
    ensures forall k :: 0 <= k < |StoredIndices(cells, faults)| ==> StoredIndices(cells, faults)[k] < |cells|
    ensures forall k, l :: 0 <= k < l < |StoredIndices(cells, faults)| ==>
      StoredIndices(cells, faults)[k] < StoredIndices(cells, faults)[l]
    decreases |cells|
  {
    if cells != [] {
      var n := |cells| - 1;
      StoredIndicesAscend(cells[..n], faults);
      var idx0 := StoredIndices(cells[..n], faults);
      var idx := StoredIndices(cells, faults);
      assert idx == idx0 + (if Recognised(cells[n]) && n !in faults then [n] else []);
      forall k | 0 <= k < |idx0|
        ensures idx0[k] < n && idx[k] == idx0[k]
      {
      }
      assert |idx| == |idx0| + 1 ==> idx[|idx0|] == n;
    }
  }

  /** Every recognised item whose insert succeeds has its index stored. */
  lemma {:induction false} StoredIndicesComplete(cells: seq<Cell>, faults: set<nat>)
    ensures forall i :: 0 <= i < |cells| && Recognised(cells[i]) && i !in faults ==>
      i in StoredIndices(cells, faults)
    decreases |cells|
  {
    if cells != [] {
      var n := |cells| - 1;
      var init := cells[..n];
      StoredIndicesComplete(init, faults);
      var idx0 := StoredIndices(init, faults);
      var idx := StoredIndices(cells, faults);
      assert idx == idx0 + (if Recognised(cells[n]) && n !in faults then [n] else []);
      forall i | 0 <= i < |cells| && Recognised(cells[i]) && i !in faults
        ensures i in idx
      {
        if i < n {
          assert init[i] == cells[i];
          assert i in idx0;
        }
      }
    }
  }

  /**
   * The stored rows are exactly the rows of the recognised items whose insert
   * succeeded, each once, in list order.
   */
  lemma PersistedInListOrder(cells: seq<Cell>, sdk: int, clock: nat -> string, faults: set<nat>)
    ensures var rows := Persisted(cells, sdk, clock, faults);
      var idx := StoredIndices(cells, faults);
      && |rows| == |idx|
      && (forall k :: 0 <= k < |idx| ==>
            && idx[k] < |cells| && Recognised(cells[idx[k]]) && idx[k] !in faults
            && rows[k] == Normalize(cells[idx[k]], sdk, clock(idx[k])).value)
      && (forall k, l :: 0 <= k < l < |idx| ==> idx[k] < idx[l])
      && (forall i :: 0 <= i < |cells| && Recognised(cells[i]) && i !in faults ==> i in idx)
  {
    PersistedAtStoredIndices(cells, sdk, clock, faults);
    StoredIndicesAscend(cells, faults);
    StoredIndicesComplete(cells, faults);
  }

  /**
   * Rows stored plus rows rejected is the number of recognised items; with no
   * storage failure, one row is stored per LTE, WCDMA or GSM item.
   */
  lemma {:induction false} PersistedCount(cells: seq<Cell>, sdk: int, clock: nat -> string, faults: set<nat>)
    ensures |Persisted(cells, sdk, clock, faults)| + CountRejected(cells, faults) == CountRecognised(cells)
    ensures CountRecognised(cells) <= |cells|
    ensures faults == {} ==> |Persisted(cells, sdk, clock, faults)| == CountRecognised(cells)
    decreases |cells|
  {
    if cells != [] {
      var n := |cells| - 1;
      PersistedCount(cells[..n], sdk, clock, faults);
      PersistedCount(cells[..n], sdk, clock, {});
    }
  }

  /** Processing item `i` adds its paragraph to the text and its row, if stored, to the rows. */
  lemma StepOne(cells: seq<Cell>, i: nat, sdk: int, clock: nat -> string, faults: set<nat>)
    requires i < |cells|
    ensures BatchText(cells[..i + 1], sdk, clock)
      == BatchText(cells[..i], sdk, clock) + Render(cells[i], sdk, clock(i))
    ensures Persisted(cells[..i + 1], sdk, clock, faults)
      == Persisted(cells[..i], sdk, clock, faults) + StoredRows(cells[i], sdk, clock(i), i in faults)
  {
    assert cells[..i + 1][..i] == cells[..i];
  }

  lemma AppendAssociates(a: string, b: string, c: string)
    ensures (a + b) + c == a + (b + c)
  {
  }

  /**
   * The state `getCellInfo` works on: the summary buffer and the database the
   * helper opens.
   */
  class Sampler {
    var cellInfoText: string
    const db: CellInfoTable

    ghost predicate Valid()
      reads this, db
    {
      db.Valid()
    }

    /** The activity's fields: an empty `StringBuilder` and the opened table. */
    constructor(db: CellInfoTable)
      requires db.Valid()
      ensures Valid() && this.db == db && cellInfoText == ""
    {
      this.db := db;
      cellInfoText := "";
    }

    /**
     * The body of the loop for one item: insert the item's row if it has one (the
     * result is ignored), then append its paragraph whatever the insert did.
     */
    method ProcessItem(cell: Cell, sdk: int, eventTime: string, storageFault: bool)
      requires Valid()
      modifies this, db
      ensures Valid()
      ensures cellInfoText == old(cellInfoText) + Render(cell, sdk, eventTime)
      ensures db.State() == InsertAll(old(db.State()), StoredRows(cell, sdk, eventTime, storageFault))
    {
      var row := Normalize(cell, sdk, eventTime);
      if row.Some? {
        var id := db.Insert(row.value, storageFault);
        assert [row.value][..0] == [];
      }
      cellInfoText := cellInfoText + Render(cell, sdk, eventTime);
    }

    /**
     * One run of `getCellInfo`.  Without the location permission nothing happens;
     * otherwise the buffer grows by the header and every item's paragraph, and the
     * table by the rows of the recognised items whose insert succeeds, in list order.
     */
    method GetCellInfo(
      locationPermitted: bool, cells: seq<Cell>, networkType: int, sdk: int,
      clock: nat -> string, faults: set<nat>)
      requires Valid()
      modifies this, db
      ensures Valid()
      ensures old(cellInfoText) <= cellInfoText
      ensures !locationPermitted ==> cellInfoText == old(cellInfoText) && db.State() == old(db.State())
      ensures locationPermitted ==>
        cellInfoText == old(cellInfoText) + Summary(networkType, cells, sdk, clock)
      ensures locationPermitted ==>
        db.State() == InsertAll(old(db.State()), Persisted(cells, sdk, clock, faults))
    {
      if !locationPermitted {
        return;
      }
      cellInfoText := cellInfoText + Header(networkType);
      AppendItems(cells, sdk, clock, faults);
      AppendAssociates(old(cellInfoText), Header(networkType), BatchText(cells, sdk, clock));
    }

    /** The `for` loop of `getCellInfo`: every item in list order. */
    method AppendItems(cells: seq<Cell>, sdk: int, clock: nat -> string, faults: set<nat>)
      requires Valid()
      modifies this, db
      ensures Valid()
      ensures cellInfoText == old(cellInfoText) + BatchText(cells, sdk, clock)
      ensures db.State() == InsertAll(old(db.State()), Persisted(cells, sdk, clock, faults))
    {
      var i := 0;
      while i < |cells|
        invariant 0 <= i <= |cells|
        invariant Valid()
        invariant cellInfoText == old(cellInfoText) + BatchText(cells[..i], sdk, clock)
        invariant db.State() == InsertAll(old(db.State()), Persisted(cells[..i], sdk, clock, faults))
      {
        ghost var done := Persisted(cells[..i], sdk, clock, faults);
        ghost var extra := StoredRows(cells[i], sdk, clock(i), i in faults);
        StepOne(cells, i, sdk, clock, faults);
        ProcessItem(cells[i], sdk, clock(i), i in faults);
        InsertAllConcat(old(db.State()), done, extra);
        AppendAssociates(old(cellInfoText), BatchText(cells[..i], sdk, clock), Render(cells[i], sdk, clock(i)));
        i := i + 1;
      }
      assert cells[..i] == cells;
    }
  }
}
