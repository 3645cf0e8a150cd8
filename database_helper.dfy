/**
 * The `cellinfo` table of `DatabaseHelper`: its schema, the row values a caller hands
 * to `insert`, and the table itself as an append-only sequence of records with an
 * `AUTOINCREMENT` counter.  `onCreate` yields the empty table; `onUpgrade` drops and
 * recreates it whatever the two version numbers are.
 */
module CellInfoDb {
  import opened Wrappers

  const DatabaseName: string := "cellinfo.db"
  const DatabaseVersion: int := 1
  const TableName: string := "cellinfo"
  const ColumnId: string := "id"
  const ColumnEventTime: string := "event_time"
  const ColumnPlmnId: string := "plmn_id"
  const ColumnTac: string := "tac"
  const ColumnCellId: string := "cell_id"
  const ColumnRsrp: string := "rsrp"
  const ColumnRsrq: string := "rsrq"
  const ColumnTechnology: string := "technology"

  /** The declared SQLite storage class of a column. */
  datatype Affinity = IntegerColumn | TextColumn

  datatype Column = Column(name: string, affinity: Affinity)

  /** The columns of `CREATE TABLE cellinfo (...)`, in declaration order. */
  const Schema: seq<Column> := [
    Column(ColumnId, IntegerColumn),
    Column(ColumnEventTime, TextColumn),
    Column(ColumnPlmnId, TextColumn),
    Column(ColumnTac, IntegerColumn),
    Column(ColumnCellId, IntegerColumn),
    Column(ColumnRsrp, TextColumn),
    Column(ColumnRsrq, TextColumn),
    Column(ColumnTechnology, TextColumn)
  ]

  /**
   * The values put into one insert (everything but the id).  `plmnId` is `None`
   * when the platform reports no operator, which stores SQL NULL.
   */
  datatype Row = Row(
    eventTime: string,
    plmnId: Option<string>,
    tac: int,
    cellId: int,
    rsrp: string,
    rsrq: string,
    technology: string)

  /** A stored record: the id the table assigned, and the inserted values. */
  datatype Record = Record(id: int, values: Row)

  /** A value as SQLite holds it. */
  datatype Value = Null | Integer(i: int) | Text(s: string)

  predicate Fits(v: Value, a: Affinity) {
    match v
    case Null => true
    case Integer(_) => a == IntegerColumn
    case Text(_) => a == TextColumn
  }

  /** The value of the named column of a record, `None` for a name the table lacks. */
  function FieldValue(r: Record, name: string): Option<Value> {
    if name == ColumnId then Some(Integer(r.id))
    else if name == ColumnEventTime then Some(Text(r.values.eventTime))
    else if name == ColumnPlmnId then
      Some(match r.values.plmnId case None => Null case Some(p) => Text(p))
    else if name == ColumnTac then Some(Integer(r.values.tac))
    else if name == ColumnCellId then Some(Integer(r.values.cellId))
    else if name == ColumnRsrp then Some(Text(r.values.rsrp))
    else if name == ColumnRsrq then Some(Text(r.values.rsrq))
    else if name == ColumnTechnology then Some(Text(r.values.technology))
    else None
  }

  /** The table has exactly eight distinct columns, `id` first. */
  lemma SchemaShape()
    ensures |Schema| == 8 && Schema[0] == Column(ColumnId, IntegerColumn)
    ensures forall i, j :: 0 <= i < j < |Schema| ==> Schema[i].name != Schema[j].name
  {
  }

  /**
   * Every record has a value for each declared column and for no other name, and each
   * value fits its column: tac and cell_id are integers, the others are text or NULL.
   */
  lemma RecordFollowsSchema(r: Record, name: string)
    ensures FieldValue(r, name).Some? <==> exists i :: 0 <= i < |Schema| && Schema[i].name == name
    ensures forall i :: 0 <= i < |Schema| && Schema[i].name == name ==>
              FieldValue(r, name).Some? && Fits(FieldValue(r, name).value, Schema[i].affinity)
  {
    if name == ColumnId { assert Schema[0].name == name; }
    else if name == ColumnEventTime { assert Schema[1].name == name; }
    else if name == ColumnPlmnId { assert Schema[2].name == name; }
    else if name == ColumnTac { assert Schema[3].name == name; }
    else if name == ColumnCellId { assert Schema[4].name == name; }
    else if name == ColumnRsrp { assert Schema[5].name == name; }
    else if name == ColumnRsrq { assert Schema[6].name == name; }
    else if name == ColumnTechnology { assert Schema[7].name == name; }
  }

  // ---------------------------------------------------------------------------
  // The table as a value

  /** The rows of the table and the next `AUTOINCREMENT` id. */
  datatype TableState = TableState(rows: seq<Record>, nextId: int)

  /** A table just created by `CREATE TABLE`: no rows, ids start at 1. */
  const Empty: TableState := TableState([], 1)

  /** Ids strictly increase along the rows and stay below the next id to hand out. */
  ghost predicate WellFormed(t: TableState) {
    && 1 <= t.nextId
    && (forall i :: 0 <= i < |t.rows| ==> 1 <= t.rows[i].id < t.nextId)
    && (forall i, j :: 0 <= i < j < |t.rows| ==> t.rows[i].id < t.rows[j].id)
  }

  /** A successful insert: one record appended under the next id. */
  function Inserted(t: TableState, values: Row): (u: TableState)
    ensures WellFormed(t) ==> WellFormed(u)
    ensures |u.rows| == |t.rows| + 1 && u.rows[..|t.rows|] == t.rows
    ensures u.rows[|t.rows|].values == values
    ensures WellFormed(t) ==> forall i :: 0 <= i < |t.rows| ==> t.rows[i].id < u.rows[|t.rows|].id
  {
    TableState(t.rows + [Record(t.nextId, values)], t.nextId + 1)
  }

  /** Successive successful inserts of `vs`, in order. */
  function InsertAll(t: TableState, vs: seq<Row>): TableState
    decreases |vs|
  {
    if vs == [] then t else Inserted(InsertAll(t, vs[..|vs| - 1]), vs[|vs| - 1])
  }

  /**
   * Inserting `vs` keeps every existing record, appends one record per value in the
   * order given, and gives each new record an id larger than every earlier one.
   */
  lemma {:induction false} InsertAllAppends(t: TableState, vs: seq<Row>)
    requires WellFormed(t)
    ensures WellFormed(InsertAll(t, vs))
    ensures var u := InsertAll(t, vs);
      && |u.rows| == |t.rows| + |vs|
      && u.rows[..|t.rows|] == t.rows
      && (forall i :: |t.rows| <= i < |u.rows| ==> u.rows[i].values == vs[i - |t.rows|])
      && (forall i :: |t.rows| <= i < |u.rows| ==> t.nextId <= u.rows[i].id)
    decreases |vs|
  {
    if vs != [] {
      var init := vs[..|vs| - 1];
      InsertAllAppends(t, init);
      var m := InsertAll(t, init);
      var u := InsertAll(t, vs);
      assert u == Inserted(m, vs[|vs| - 1]);
      assert u.rows == m.rows + [Record(m.nextId, vs[|vs| - 1])];
      forall i | |t.rows| <= i < |u.rows|
        ensures u.rows[i].values == vs[i - |t.rows|]
        ensures t.nextId <= u.rows[i].id
      {
        if i < |m.rows| {
          assert u.rows[i] == m.rows[i];
        } else {
          assert u.rows[i] == Record(m.nextId, vs[|vs| - 1]);
          if init == [] {
            assert m == t;
          } else {
            assert t.nextId <= m.rows[|m.rows| - 1].id < m.nextId;
          }
        }
      }
    }
  }

  /** Inserting `a` then `b` is inserting `a + b`. */
  lemma {:induction false} InsertAllConcat(t: TableState, a: seq<Row>, b: seq<Row>)
    ensures InsertAll(InsertAll(t, a), b) == InsertAll(t, a + b)
    decreases |b|
  {
    if b == [] {
      assert a + b == a;
    } else {
      var b' := b[..|b| - 1];
      InsertAllConcat(t, a, b');
      assert (a + b)[..|a + b| - 1] == a + b';
    }
  }

  /** `onUpgrade`: the table after a drop and recreate, whatever the versions. */
  function Upgraded(t: TableState, oldVersion: int, newVersion: int): (u: TableState)
    ensures u.rows == [] && WellFormed(u)
  {
    Empty
  }

  /** The versions passed to `onUpgrade` make no difference. */
  lemma UpgradeIgnoresVersions(t: TableState, old1: int, new1: int, old2: int, new2: int)
    ensures Upgraded(t, old1, new1) == Upgraded(t, old2, new2) == Empty
  {
  }

  // ---------------------------------------------------------------------------
  // The table as the object the helper changes in place

  class CellInfoTable {
    var columns: seq<Column>
    var rows: seq<Record>
    var nextId: int

    ghost predicate Valid()
      reads this
    {
      columns == Schema && WellFormed(State())
    }

    function State(): TableState
      reads this
    {
      TableState(rows, nextId)
    }

    /** `onCreate`: the table with the declared columns and no rows. */
    constructor Create()
      ensures Valid() && State() == Empty && rows == []
    {
      columns := Schema;
      rows := [];
      nextId := 1;
    }

    /**
     * `db.insert`: on success appends one record under a fresh id and returns that id;
     * when the storage rejects the write (`storageFault`) nothing changes and the
     * result is -1.
     */
    method Insert(values: Row, storageFault: bool) returns (id: int)
      requires Valid()
      modifies this
      ensures Valid()
      ensures storageFault ==> id == -1 && State() == old(State())
      ensures !storageFault ==> id == old(nextId) && State() == Inserted(old(State()), values)
      ensures !storageFault ==> forall i :: 0 <= i < |old(rows)| ==> old(rows)[i].id < id
    {
      if storageFault {
        id := -1;
      } else {
        id := nextId;
        rows := rows + [Record(id, values)];
        nextId := nextId + 1;
      }
    }

    /**
     * `onUpgrade`: `DROP TABLE IF EXISTS cellinfo`, then `onCreate`.  Dropping the
     * table also discards its `AUTOINCREMENT` counter.
     */
    method Upgrade(oldVersion: int, newVersion: int)
      requires Valid()
      modifies this
      ensures Valid()
      ensures State() == Upgraded(old(State()), oldVersion, newVersion)
      ensures rows == []
    {
      rows := [];
      nextId := 1;
      columns := Schema;
    }
  }
}
