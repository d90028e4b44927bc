/**
 * The soft-delete mixin: `delete` marks a row as deleted and `restore`
 * unmarks it, each by assigning `is_deleted` on the instance and saving
 * that one column; `hard_delete` removes the row for good. A table maps
 * primary keys to rows; a row's other columns are an opaque map of names
 * to values.
 */
module SoftDelete {
  import opened Common

  datatype Record = Record(fields: map<string, string>, isDeleted: bool)

  /**
   * `save(update_fields=[...])` first gives a keyless instance its key
   * field's default, if the field has one (a fresh `uuid4` for `UUIDModel`).
   * It then refuses an instance still without a key (a `ValueError`), and
   * raises a `DatabaseError` when no row has the key. `Model.delete` refuses
   * an instance without a key.
   */
  datatype WriteError = NoPrimaryKey | RowMissing

  /** What a write reports, and the table after it. */
  datatype Written = Written(outcome: Outcome<WriteError>, rows: map<string, Record>)

  /**
   * `save(update_fields=["is_deleted"])` of an instance whose `is_deleted`
   * is `flag`. `id` is its key once the key field's default is filled in.
   * Only that column of the stored row is written.
   */
  function Mark(rows: map<string, Record>, id: Option<string>, flag: bool): (w: Written)
    ensures w.outcome == Pass <==> id.Some? && id.value in rows
    ensures id.None? ==> w.outcome == Fail(NoPrimaryKey)
    ensures id.Some? && id.value !in rows ==> w.outcome == Fail(RowMissing)
    ensures w.outcome.Fail? ==> w.rows == rows
    ensures w.rows.Keys == rows.Keys
    ensures w.outcome == Pass ==>
      w.rows[id.value].isDeleted == flag && w.rows[id.value].fields == rows[id.value].fields
    ensures forall k :: k in rows && Some(k) != id ==> w.rows[k] == rows[k]
  {
    if id.None? then Written(Fail(NoPrimaryKey), rows)
    else if id.value !in rows then Written(Fail(RowMissing), rows)
    else Written(Pass, rows[id.value := rows[id.value].(isDeleted := flag)])
  }

  /** `Model.delete` through the collector: the row leaves the table; deleting an absent row is no error. */
  function Remove(rows: map<string, Record>, id: Option<string>): (w: Written)
    ensures w.outcome == Pass <==> id.Some?
    ensures id.None? ==> w.outcome == Fail(NoPrimaryKey) && w.rows == rows
    ensures id.Some? ==> w.rows.Keys == rows.Keys - {id.value}
    ensures forall k :: k in w.rows ==> k in rows && w.rows[k] == rows[k]
  {
    if id.None? then Written(Fail(NoPrimaryKey), rows)
    else Written(Pass, rows - {id.value})
  }

  /** Deleting twice is deleting once. */
  lemma DeleteIdempotent(rows: map<string, Record>, id: Option<string>)
    ensures Mark(Mark(rows, id, true).rows, id, true) == Mark(rows, id, true)
  {
    var once := Mark(rows, id, true);
    if once.outcome == Pass {
      assert once.rows[id.value := once.rows[id.value].(isDeleted := true)] == once.rows;
    }
  }

  /**
   * Restoring after a delete leaves `is_deleted` false and every other
   * column as it was; a row that was not deleted comes back exactly.
   */
  lemma DeleteThenRestore(rows: map<string, Record>, id: Option<string>)
    ensures var back := Mark(Mark(rows, id, true).rows, id, false);
      back.outcome == Mark(rows, id, true).outcome &&
      back.rows.Keys == rows.Keys &&
      (back.outcome == Pass ==> back.rows == rows[id.value := Record(rows[id.value].fields, false)]) &&
      (back.outcome == Pass && !rows[id.value].isDeleted ==> back.rows == rows)
  {
    if id.Some? && id.value in rows && !rows[id.value].isDeleted {
      assert rows[id.value := Record(rows[id.value].fields, false)] == rows;
    }
  }

  /**
   * A hard delete makes the key absent. A later soft delete of the same
   * instance then fails as a missing row and writes nothing. This holds
   * under the old key, and under a fresh default key that no row has.
   */
  lemma RemovedCannotBeMarked(rows: map<string, Record>, id: string, key: string, flag: bool)
    requires key == id || key !in rows
    ensures Mark(Remove(rows, Some(id)).rows, Some(key), flag) == Written(Fail(RowMissing), Remove(rows, Some(id)).rows)
  {
  }

  /** The table. */
  class Table {
    var rows: map<string, Record>

    constructor (rows: map<string, Record>)
      ensures this.rows == rows
    {
      this.rows := rows;
    }
  }

  /**
   * An instance of a soft-deletable model: its key (`None` once hard
   * deleted) and its attributes as loaded or assigned.
   */
  class SoftDeletable {
    var id: Option<string>
    var fields: map<string, string>
    var isDeleted: bool

    /** An instance loaded from the row with key `id`. */
    constructor Load(id: string, row: Record)
      ensures this.id == Some(id) && fields == row.fields && isDeleted == row.isDeleted
    {
      this.id := Some(id);
      fields := row.fields;
      isDeleted := row.isDeleted;
    }

    /**
     * `save(update_fields=["is_deleted"])`. `pkDefault` is what the key
     * field's default gives: None for a key without a default, a fresh
     * `uuid4` for `UUIDModel`. A keyless instance takes it before the write.
     */
    method SaveDeletedFlag(table: Table, pkDefault: Option<string>) returns (r: Outcome<WriteError>)
      modifies this, table
      ensures id == (if old(id).None? then pkDefault else old(id))
      ensures fields == old(fields) && isDeleted == old(isDeleted)
      ensures Written(r, table.rows) == Mark(old(table.rows), id, isDeleted)
    {
      if id.None? {
        id := pkDefault;
      }
      if id.None? {
        r := Fail(NoPrimaryKey);
      } else if id.value !in table.rows {
        r := Fail(RowMissing);
      } else {
        table.rows := table.rows[id.value := table.rows[id.value].(isDeleted := isDeleted)];
        r := Pass;
      }
    }

    /** `delete`: the attribute is set even when the save then raises. */
    method Delete(table: Table, pkDefault: Option<string>) returns (r: Outcome<WriteError>)
      modifies this, table
      ensures isDeleted && fields == old(fields)
      ensures id == (if old(id).None? then pkDefault else old(id))
      ensures Written(r, table.rows) == Mark(old(table.rows), id, true)
    {
      isDeleted := true;
      r := SaveDeletedFlag(table, pkDefault);
    }

    /** `restore`. */
    method Restore(table: Table, pkDefault: Option<string>) returns (r: Outcome<WriteError>)
      modifies this, table
      ensures !isDeleted && fields == old(fields)
      ensures id == (if old(id).None? then pkDefault else old(id))
      ensures Written(r, table.rows) == Mark(old(table.rows), id, false)
    {
      isDeleted := false;
      r := SaveDeletedFlag(table, pkDefault);
    }

    /** `hard_delete`: the row goes and the instance loses its key. */
    method HardDelete(table: Table) returns (r: Outcome<WriteError>)
      modifies this, table
      ensures Written(r, table.rows) == Remove(old(table.rows), old(id))
      ensures id == None && fields == old(fields) && isDeleted == old(isDeleted)
    {
      if id.None? {
        r := Fail(NoPrimaryKey);
      } else {
        table.rows := table.rows - {id.value};
        id := None;
        r := Pass;
      }
    }
  }
}
