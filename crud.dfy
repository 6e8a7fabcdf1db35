/**
 * The prompt and tool tables behind `app/crud.py`: an in-memory table of rows
 * (an integer id plus the model's columns) with the database's own
 * constraints: the id is SQLite's next row id, `name` is UNIQUE, and the
 * NOT NULL columns must hold a value when a change is committed.
 */
module Crud {
  import opened Wrappers
  import opened Json
  import Schemas

  datatype Row = Row(id: int, columns: map<string, Json>)

  /** The exception a failed commit raises. */
  datatype DbError = IntegrityError

  function NameOf(row: Row): Json {
    if "name" in row.columns then row.columns["name"] else JNull
  }

  /** The index of the first row that `p` selects, or -1. */
  function FirstIndex(rows: seq<Row>, p: Row -> bool): (k: int)
    ensures -1 <= k < |rows|
    ensures k >= 0 ==> p(rows[k]) && forall j :: 0 <= j < k ==> !p(rows[j])
    ensures k < 0 ==> forall j :: 0 <= j < |rows| ==> !p(rows[j])
  {
    if rows == [] then -1
    else if p(rows[0]) then 0
    else
      var k := FirstIndex(rows[1..], p);
      if k < 0 then -1 else k + 1
  }

  function IndexOfId(rows: seq<Row>, id: int): int {
    FirstIndex(rows, (r: Row) => r.id == id)
  }

  /** `query.filter(id == id).first()`. */
  function FindById(rows: seq<Row>, id: int): (r: Option<Row>)
    ensures r.None? <==> forall j :: 0 <= j < |rows| ==> rows[j].id != id
    ensures r.Some? ==> r.value.id == id && r.value == rows[IndexOfId(rows, id)]
  {
    var k := IndexOfId(rows, id);
    if k < 0 then None else Some(rows[k])
  }

  /** `query.filter(name == name).first()`: the first row with that name. */
  function FindByName(rows: seq<Row>, name: Json): (r: Option<Row>)
    ensures r.None? <==> forall j :: 0 <= j < |rows| ==> NameOf(rows[j]) != name
    ensures r.Some? ==>
      exists k :: (0 <= k < |rows| && rows[k] == r.value && NameOf(r.value) == name &&
        forall j :: 0 <= j < k ==> NameOf(rows[j]) != name)
  {
    var k := FirstIndex(rows, (r: Row) => NameOf(r) == name);
    if k < 0 then None else Some(rows[k])
  }

  /** `query.offset(skip).limit(limit).all()`. */
  function Page(rows: seq<Row>, skip: nat, limit: nat): (r: seq<Row>)
    ensures |r| == if skip >= |rows| then 0 else if |rows| - skip < limit then |rows| - skip else limit
    ensures forall k :: 0 <= k < |r| ==> r[k] == rows[skip + k]
  {
    if skip >= |rows| then []
    else
      var rest := rows[skip..];
      if limit < |rest| then rest[..limit] else rest
  }

  /** SQLite's id for a new row: one more than the largest id present, 1 in an empty table. */
  function NextId(rows: seq<Row>): (id: int)
    ensures id >= 1
    ensures forall j :: 0 <= j < |rows| ==> rows[j].id < id
  {
    if rows == [] then 1
    else
      var n := NextId(rows[..|rows| - 1]);
      var last := rows[|rows| - 1].id;
      if last + 1 > n then last + 1 else n
  }

  predicate IdsUnique(rows: seq<Row>) {
    forall i, j :: 0 <= i < j < |rows| ==> rows[i].id != rows[j].id
  }

  /** The UNIQUE constraint on `name` (NULLs never clash). */
  predicate NamesUnique(rows: seq<Row>) {
    forall i, j :: 0 <= i < j < |rows| ==> NameOf(rows[i]) == JNull || NameOf(rows[i]) != NameOf(rows[j])
  }

  /** The NOT NULL constraints. */
  predicate Complete(row: Row, notNull: set<string>) {
    forall c :: c in notNull ==> c in row.columns && row.columns[c] != JNull
  }

  predicate ValidRows(rows: seq<Row>, notNull: set<string>) {
    IdsUnique(rows) && NamesUnique(rows) && forall k :: 0 <= k < |rows| ==> Complete(rows[k], notNull)
  }

  /** The database accepts `row` beside the rows of `rows` with other ids. */
  predicate Admissible(rows: seq<Row>, row: Row, notNull: set<string>) {
    Complete(row, notNull) &&
    (NameOf(row) != JNull ==> forall k :: 0 <= k < |rows| && rows[k].id != row.id ==> NameOf(rows[k]) != NameOf(row))
  }

  class Table {
    const notNull: set<string>
    var rows: seq<Row>

    predicate Valid()
      reads this
    {
      ValidRows(rows, notNull)
    }

    constructor(notNull: set<string>)
      ensures this.notNull == notNull && rows == [] && Valid()
    {
      this.notNull := notNull;
      rows := [];
    }

    /** `create_prompt` / `create_tool`: a row with a fresh id and exactly the dumped columns. */
    method Create(items: Schemas.Items) returns (r: Result<Row, DbError>)
      requires Valid()
      modifies this
      ensures Valid()
      ensures var row := Row(NextId(old(rows)), Schemas.Columns(items));
        if Admissible(old(rows), row, notNull) then r == Ok(row) && rows == old(rows) + [row]
        else r == Err(IntegrityError) && rows == old(rows)
    {
      var row := Row(NextId(rows), Schemas.Columns(items));
      if Admissible(rows, row, notNull) {
        AppendKeepsValid(rows, row, notNull);
        rows := rows + [row];
        r := Ok(row);
      } else {
        r := Err(IntegrityError);
      }
    }

    /**
     * `update_prompt` / `update_tool`: the `setattr` loop over the set fields
     * of the found row, then the commit.
     */
    method Update(id: int, items: Schemas.Items) returns (r: Result<Option<Row>, DbError>)
      requires Valid()
      modifies this
      ensures Valid()
      ensures var k := IndexOfId(old(rows), id);
        if k < 0 then r == Ok(None) && rows == old(rows)
        else
          var row := Row(id, Schemas.Assign(old(rows)[k].columns, items));
          if Admissible(old(rows), row, notNull) then r == Ok(Some(row)) && rows == old(rows)[k := row]
          else r == Err(IntegrityError) && rows == old(rows)
    {
      var k := IndexOfId(rows, id);
      if k < 0 {
        return Ok(None);
      }
      var columns := rows[k].columns;
      var i := 0;
      while i < |items|
        invariant 0 <= i <= |items|
        invariant columns == Schemas.Assign(rows[k].columns, items[..i])
      {
        assert items[..i + 1][..i] == items[..i];
        columns := columns[items[i].0 := items[i].1];
        i := i + 1;
      }
      assert items[..|items|] == items;
      var row := Row(id, columns);
      if Admissible(rows, row, notNull) {
        ReplaceKeepsValid(rows, k, row, notNull);
        rows := rows[k := row];
        r := Ok(Some(row));
      } else {
        r := Err(IntegrityError);
      }
    }

    /** `delete_prompt` / `delete_tool`: the removed row, or None when no row has that id. */
    method Delete(id: int) returns (r: Option<Row>)
      requires Valid()
      modifies this
      ensures Valid()
      ensures var k := IndexOfId(old(rows), id);
        if k < 0 then r == None && rows == old(rows)
        else r == Some(old(rows)[k]) && rows == old(rows)[..k] + old(rows)[k + 1..]
    {
      var k := IndexOfId(rows, id);
      if k < 0 {
        return None;
      }
      r := Some(rows[k]);
      RemoveKeepsValid(rows, k, notNull);
      rows := rows[..k] + rows[k + 1..];
    }
  }

  // ----- Properties -----

  /** Adding an admissible row with the next id keeps every constraint. */
  lemma AppendKeepsValid(rows: seq<Row>, row: Row, notNull: set<string>)
    requires ValidRows(rows, notNull) && row.id == NextId(rows) && Admissible(rows, row, notNull)
    ensures ValidRows(rows + [row], notNull)
  {
    var rows' := rows + [row];
    forall i, j | 0 <= i < j < |rows'| ensures NameOf(rows'[i]) == JNull || NameOf(rows'[i]) != NameOf(rows'[j]) {
      if j == |rows| && NameOf(rows'[i]) != JNull {
        assert rows'[i].id < row.id;
      }
    }
  }

  /** Replacing a row by an admissible one with the same id keeps every constraint. */
  lemma ReplaceKeepsValid(rows: seq<Row>, k: nat, row: Row, notNull: set<string>)
    requires ValidRows(rows, notNull) && k < |rows| && row.id == rows[k].id && Admissible(rows, row, notNull)
    ensures ValidRows(rows[k := row], notNull)
  {
    var rows' := rows[k := row];
    forall i, j | 0 <= i < j < |rows'| ensures NameOf(rows'[i]) == JNull || NameOf(rows'[i]) != NameOf(rows'[j]) {
      if i == k {
        assert rows[j].id != row.id;
      } else if j == k {
        assert rows[i].id != row.id;
      }
    }
  }

  lemma RemoveKeepsValid(rows: seq<Row>, k: nat, notNull: set<string>)
    requires ValidRows(rows, notNull) && k < |rows|
    ensures ValidRows(rows[..k] + rows[k + 1..], notNull)
  {
    var rows' := rows[..k] + rows[k + 1..];
    forall i | 0 <= i < |rows'| ensures rows'[i] == rows[if i < k then i else i + 1] {}
  }

  /** After a create, the new row is found by its id and every other id finds what it found before. */
  lemma CreatedIsFound(rows: seq<Row>, row: Row, other: int)
    requires row.id == NextId(rows) && other != row.id
    ensures FindById(rows + [row], row.id) == Some(row)
    ensures FindById(rows + [row], other) == FindById(rows, other)
  {
    var rows' := rows + [row];
    assert rows'[|rows|] == row;
    if FindById(rows, other).Some? {
      var k := IndexOfId(rows, other);
      assert rows'[k] == rows[k];
      assert forall j :: 0 <= j < k ==> rows'[j] == rows[j];
      assert IndexOfId(rows', other) == k by {
        var k' := IndexOfId(rows', other);
        assert k' >= 0 && k' <= k;
        assert rows'[k'] == rows[k'];
      }
    }
  }

  /** After a delete, the id finds nothing; ids are unique, so no other row carried it. */
  lemma DeletedIsGone(rows: seq<Row>, k: nat)
    requires IdsUnique(rows) && k < |rows|
    ensures FindById(rows[..k] + rows[k + 1..], rows[k].id) == None
  {
    var rows' := rows[..k] + rows[k + 1..];
    forall j | 0 <= j < |rows'| ensures rows'[j].id != rows[k].id {
      assert rows'[j] == rows[if j < k then j else j + 1];
    }
  }

  /** An update changes only the columns it sets: the rest of the row, and its id, stay as they were. */
  lemma UpdateChangesOnlySetColumns(row: Row, items: Schemas.Items, c: string)
    requires c !in Schemas.Columns(items)
    ensures c in row.columns ==> c in Schemas.Assign(row.columns, items) && Schemas.Assign(row.columns, items)[c] == row.columns[c]
    ensures c !in row.columns ==> c !in Schemas.Assign(row.columns, items)
    ensures forall s :: s in Schemas.Columns(items) ==>
      s in Schemas.Assign(row.columns, items) && Schemas.Assign(row.columns, items)[s] == Schemas.Columns(items)[s]
  {
    Schemas.AssignIsUnion(row.columns, items);
  }

  /** With unique names, the row a name lookup finds is the only row with that name. */
  lemma NameLookupIsUnique(rows: seq<Row>, name: Json)
    requires NamesUnique(rows) && name != JNull && FindByName(rows, name).Some?
    ensures forall j :: 0 <= j < |rows| && NameOf(rows[j]) == name ==> rows[j] == FindByName(rows, name).value
  {
    var k :| 0 <= k < |rows| && rows[k] == FindByName(rows, name).value && NameOf(rows[k]) == name &&
      (forall j :: 0 <= j < k ==> NameOf(rows[j]) != name);
    forall j | 0 <= j < |rows| && NameOf(rows[j]) == name ensures rows[j] == rows[k] {
      if j < k {
        assert false;
      } else if j > k {
        assert false;
      }
    }
  }

  /** A page is the slice `rows[skip:skip + limit]`: skipping `skip` rows, then at most `limit`. */
  lemma PageIsSlice(rows: seq<Row>, skip: nat, limit: nat)
    requires skip <= |rows|
    ensures Page(rows, skip, limit) == rows[skip..if skip + limit <= |rows| then skip + limit else |rows|]
  {
  }
}
