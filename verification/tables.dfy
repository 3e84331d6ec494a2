/** A database table as an immutable value: the rows in storage order and the
    next value of the autoincrement id sequence. Every row carries its id and
    its `createdAt` day; the entity's own columns are the row's `data`. */
module Tables {
  import opened Common

  datatype Row<T> = Row(id: int, createdAt: int, data: T)

  datatype Table<T> = Table(rows: seq<Row<T>>, nextId: int)

  /** The table invariant the database keeps: ids are positive, below the
      next id of the sequence, and pairwise distinct. */
  ghost predicate Valid<T>(t: Table<T>) {
    && t.nextId >= 1
    && (forall i :: 0 <= i < |t.rows| ==> 1 <= t.rows[i].id < t.nextId)
    && (forall i, j :: 0 <= i < j < |t.rows| ==> t.rows[i].id != t.rows[j].id)
  }

  /** `create`: appends one row with the next id. */
  function Insert<T>(t: Table<T>, now: int, data: T): (r: Table<T>)
    ensures r.rows == t.rows + [Row(t.nextId, now, data)]
    ensures r.nextId == t.nextId + 1
    ensures Valid(t) ==> Valid(r)
  {
    Table(t.rows + [Row(t.nextId, now, data)], t.nextId + 1)
  }

  /** The row created by the last `Insert`. */
  function Last<T>(t: Table<T>): Row<T>
    requires |t.rows| > 0
  {
    t.rows[|t.rows| - 1]
  }

  /** Index of the first element satisfying `p` (`findFirst`, `findUnique`). */
  function FirstIndex<T>(s: seq<T>, p: T -> bool): (r: Option<nat>)
    ensures r.Some? ==> r.value < |s| && p(s[r.value])
    ensures r.Some? ==> forall j :: 0 <= j < r.value ==> !p(s[j])
    ensures r.None? ==> forall j :: 0 <= j < |s| ==> !p(s[j])
  {
    if |s| == 0 then None
    else if p(s[0]) then Some(0)
    else match FirstIndex(s[1..], p)
      case None => None
      case Some(k) => Some(k + 1)
  }

  function HasId<T>(id: int): Row<T> -> bool {
    (row: Row<T>) => row.id == id
  }

  /** Where the row with primary key `id` is stored, if anywhere. */
  function IndexOfId<T>(t: Table<T>, id: int): (r: Option<nat>)
    ensures r.Some? ==> r.value < |t.rows| && t.rows[r.value].id == id
    ensures r.None? <==> forall j :: 0 <= j < |t.rows| ==> t.rows[j].id != id
  {
    var r := FirstIndex(t.rows, HasId(id));
    assert r.Some? ==> HasId(id)(t.rows[r.value]);
    assert r.None? ==> forall j :: 0 <= j < |t.rows| ==> !HasId(id)(t.rows[j]);
    r
  }

  /** `update` of the row at index `i`: only its columns change. */
  function SetData<T>(t: Table<T>, i: nat, data: T): (r: Table<T>)
    requires i < |t.rows|
    ensures |r.rows| == |t.rows| && r.nextId == t.nextId
    ensures r.rows[i] == Row(t.rows[i].id, t.rows[i].createdAt, data)
    ensures forall j :: 0 <= j < |t.rows| && j != i ==> r.rows[j] == t.rows[j]
    ensures Valid(t) ==> Valid(r)
  {
    Table(t.rows[i := Row(t.rows[i].id, t.rows[i].createdAt, data)], t.nextId)
  }

  /** The sequence without its element at index `i`. */
  function RemoveAt<T>(s: seq<T>, i: nat): (r: seq<T>)
    requires i < |s|
    ensures |r| == |s| - 1
    ensures forall k :: 0 <= k < i ==> r[k] == s[k]
    ensures forall k :: i <= k < |r| ==> r[k] == s[k + 1]
  {
    s[..i] + s[i + 1..]
  }

  /** Removing the row at `i` keeps every other row and adds none. */
  lemma RemoveAtKeepsOthers<T>(t: Table<T>, i: nat)
    requires i < |t.rows|
    ensures forall row :: row in RemoveAt(t.rows, i) ==> row in t.rows
    ensures forall row :: row in t.rows && row.id != t.rows[i].id ==> row in RemoveAt(t.rows, i)
  {
    var rows := RemoveAt(t.rows, i);
    forall row | row in rows ensures row in t.rows {
      var k :| 0 <= k < |rows| && rows[k] == row;
      assert row == t.rows[if k < i then k else k + 1];
    }
    forall row | row in t.rows && row.id != t.rows[i].id ensures row in rows {
      var k :| 0 <= k < |t.rows| && t.rows[k] == row;
      if k < i { assert rows[k] == row; } else { assert rows[k - 1] == row; }
    }
  }

  /** In a valid table, removing the row at `i` removes its id and keeps the
      table valid. */
  lemma RemoveAtKeepsValid<T>(t: Table<T>, i: nat)
    requires i < |t.rows|
    ensures Valid(t) ==> Valid(Table(RemoveAt(t.rows, i), t.nextId))
    ensures Valid(t) ==> forall row :: row in RemoveAt(t.rows, i) ==> row.id != t.rows[i].id
  {
    if !Valid(t) {
      return;
    }
    var rows := RemoveAt(t.rows, i);
    forall a, b | 0 <= a < b < |rows| ensures rows[a].id != rows[b].id {
      assert rows[a] == t.rows[if a < i then a else a + 1];
      assert rows[b] == t.rows[if b < i then b else b + 1];
    }
    forall row | row in rows ensures row.id != t.rows[i].id {
      var k :| 0 <= k < |rows| && rows[k] == row;
      assert row == t.rows[if k < i then k else k + 1];
    }
  }

  /** `delete` by primary key; `None` when no row has that id, which is the
      case where Prisma throws. */
  function DeleteById<T>(t: Table<T>, id: int): (r: Option<Table<T>>)
    ensures r.None? <==> forall j :: 0 <= j < |t.rows| ==> t.rows[j].id != id
    ensures r.Some? ==> |r.value.rows| == |t.rows| - 1 && r.value.nextId == t.nextId
    ensures r.Some? && Valid(t) ==> Valid(r.value)
    ensures r.Some? && Valid(t) ==> forall row :: row in r.value.rows ==> row.id != id
    ensures r.Some? ==> forall row :: row in t.rows && row.id != id ==> row in r.value.rows
    ensures r.Some? ==> forall row :: row in r.value.rows ==> row in t.rows
  {
    match IndexOfId(t, id)
    case None => None
    case Some(i) =>
      RemoveAtKeepsOthers(t, i);
      RemoveAtKeepsValid(t, i);
      Some(Table(RemoveAt(t.rows, i), t.nextId))
  }
}
