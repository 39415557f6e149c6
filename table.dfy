/**
 * A table of the abstract store: rows in insertion order, each carrying the
 * id the store assigned to it, and the next id the store will hand out (an
 * autoincrement sequence; ids of deleted rows are never reused).
 */
module Tables {
  import opened Http

  datatype Row<T> = Row(id: nat, fields: T)

  datatype Table<T> = Table(rows: seq<Row<T>>, nextId: nat)

  /** A fresh table; the database's sequences start at 1. */
  function Empty<T>(): Table<T> {
    Table([], 1)
  }

  /** Some row of `t` has primary key `id`. */
  predicate HasId<T>(t: Table<T>, id: int) {
    exists k :: 0 <= k < |t.rows| && t.rows[k].id == id
  }

  /** Ids are strictly increasing in row order and all below the next id. */
  predicate WellFormed<T>(t: Table<T>) {
    && (forall i :: 0 <= i < |t.rows| ==> t.rows[i].id < t.nextId)
    && (forall i, j :: 0 <= i < j < |t.rows| ==> t.rows[i].id < t.rows[j].id)
  }

  /** Index of the first row satisfying `p`: the `.first()` of a `select ... where`. */
  function FirstWhere<T>(rows: seq<Row<T>>, p: Row<T> -> bool): (r: Option<nat>)
    ensures r.Some? ==> r.value < |rows| && p(rows[r.value])
    ensures r.Some? ==> forall j :: 0 <= j < r.value ==> !p(rows[j])
    ensures r.None? ==> forall j :: 0 <= j < |rows| ==> !p(rows[j])
  {
    if |rows| == 0 then None
    else if p(rows[0]) then Some(0)
    else match FirstWhere(rows[1..], p)
      case None => None
      case Some(k) => Some(k + 1)
  }

  /** Index of the row whose primary key is `id`. */
  function IndexOf<T>(t: Table<T>, id: int): (r: Option<nat>)
    ensures r.Some? ==> r.value < |t.rows| && t.rows[r.value].id == id
    ensures r.None? ==> forall j :: 0 <= j < |t.rows| ==> t.rows[j].id != id
  {
    FirstWhere(t.rows, (row: Row<T>) => row.id == id)
  }

  /** `session.add(row); session.commit()`: the row gets the next id and goes last. */
  function Insert<T>(t: Table<T>, fields: T): (r: Table<T>)
    ensures WellFormed(t) ==> WellFormed(r)
    ensures |r.rows| == |t.rows| + 1 && r.rows[..|t.rows|] == t.rows
    ensures r.rows[|t.rows|] == Row(t.nextId, fields)
    ensures WellFormed(t) ==> forall j :: 0 <= j < |t.rows| ==> t.rows[j].id < r.rows[|t.rows|].id
  {
    Table(t.rows + [Row(t.nextId, fields)], t.nextId + 1)
  }

  /** `session.delete(row); session.commit()` for the row at index `k`. */
  function RemoveAt<T>(t: Table<T>, k: nat): (r: Table<T>)
    requires k < |t.rows|
    ensures WellFormed(t) ==> WellFormed(r)
    ensures r.nextId == t.nextId && |r.rows| == |t.rows| - 1
    ensures forall j :: 0 <= j < k ==> r.rows[j] == t.rows[j]
    ensures forall j :: k <= j < |r.rows| ==> r.rows[j] == t.rows[j + 1]
    ensures WellFormed(t) ==> forall j :: 0 <= j < |r.rows| ==> r.rows[j].id != t.rows[k].id
  {
    Table(t.rows[..k] + t.rows[k + 1..], t.nextId)
  }
}
