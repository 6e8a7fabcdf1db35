/**
 * The JSON routes of `/ui/prompts/api` and `/ui/tools/api`: validation of the body
 * (422), the existence checks (404), the name checks (400) and the store
 * operations they lead to. The two routers differ only in their resource
 * label, their schemas and their NOT NULL columns.
 */
module Routes {
  import opened Wrappers
  import opened Json
  import Schemas
  import Crud

  datatype Resource = Prompts | Tools

  function Label(res: Resource): string {
    match res
    case Prompts => "Prompt"
    case Tools => "Tool"
  }

  function CreateFields(res: Resource): seq<Schemas.Field> {
    match res
    case Prompts => Schemas.PromptCreateFields
    case Tools => Schemas.ToolCreateFields
  }

  function UpdateFields(res: Resource): seq<Schemas.Field> {
    match res
    case Prompts => Schemas.PromptUpdateFields
    case Tools => Schemas.ToolUpdateFields
  }

  /** The `nullable=False` columns of the `prompts` and `tools` tables. */
  function NotNull(res: Resource): set<string> {
    match res
    case Prompts => {"name", "content"}
    case Tools => {"name"}
  }

  /** The defaults of the `skip` and `limit` query parameters of the list routes. */
  const DefaultSkip: nat := 0
  const DefaultLimit: nat := 100

  datatype Response =
    | Rows(status: int, rows: seq<Crud.Row>)   // 200 or 201 with the row(s)
    | Detail(status: int, detail: string)      // an HTTPException
    | Unprocessable(fields: seq<string>)       // 422 from body validation
    | NoContent                                // 204
    | ServerError                              // 500: the commit raised

  /** The `name` a body sets, None when it sets none. */
  function NameIn(items: Schemas.Items): Json {
    var columns := Schemas.Columns(items);
    if "name" in columns then columns["name"] else JNull
  }

  function NameText(name: Json): string {
    if name.JStr? then name.s else ""
  }

  function NotFound(res: Resource): Response {
    Detail(404, Label(res) + " not found")
  }

  function AlreadyRegistered(res: Resource, name: Json): Response {
    Detail(400, Label(res) + " name '" + NameText(name) + "' already registered")
  }

  function AlreadyExists(res: Resource, name: Json): Response {
    Detail(400, Label(res) + " name '" + NameText(name) + "' already exists.")
  }

  /** Some NOT NULL column is set to None. */
  predicate NullsRequired(items: Schemas.Items, notNull: set<string>) {
    exists c :: c in notNull && c in Schemas.Columns(items) && Schemas.Columns(items)[c] == JNull
  }

  /** `read_prompt_api_route` / `read_tool_api_route`. */
  function ReadRoute(res: Resource, rows: seq<Crud.Row>, id: int): (r: Response)
    ensures r == NotFound(res) <==> forall j :: 0 <= j < |rows| ==> rows[j].id != id
    ensures r != NotFound(res) ==> r.Rows? && r.status == 200 && |r.rows| == 1 && r.rows[0] in rows && r.rows[0].id == id
  {
    match Crud.FindById(rows, id)
    case None => NotFound(res)
    case Some(row) => Rows(200, [row])
  }

  /** `read_prompts_api_route` / `read_tools_api_route`. */
  function ListRoute(rows: seq<Crud.Row>, skip: nat, limit: nat): (r: Response)
    ensures r.Rows? && r.status == 200 && |r.rows| <= limit
    ensures forall k :: 0 <= k < |r.rows| ==> skip + k < |rows| && r.rows[k] == rows[skip + k]
  {
    Rows(200, Crud.Page(rows, skip, limit))
  }

  /** `create_prompt_api_route` / `create_tool_api_route`. */
  method CreateRoute(res: Resource, table: Crud.Table, body: Json) returns (resp: Response)
    requires table.Valid() && table.notNull == NotNull(res)
    modifies table
    ensures table.Valid()
    ensures match Schemas.Validate(CreateFields(res), body, false)
      case Err(fields) => resp == Unprocessable(fields) && table.rows == old(table.rows)
      case Ok(items) =>
        if Crud.FindByName(old(table.rows), NameIn(items)).Some? then
          resp == AlreadyRegistered(res, NameIn(items)) && table.rows == old(table.rows)
        else
          var row := Crud.Row(Crud.NextId(old(table.rows)), Schemas.Columns(items));
          resp == Rows(201, [row]) && table.rows == old(table.rows) + [row]
  {
    var v := Schemas.Validate(CreateFields(res), body, false);
    if v.Err? {
      return Unprocessable(v.error);
    }
    var items := v.value;
    if Crud.FindByName(table.rows, NameIn(items)).Some? {
      return AlreadyRegistered(res, NameIn(items));
    }
    ValidCreateBody(res, body);
    CreateAdmissible(table.rows, items, table.notNull);
    var r := table.Create(items);
    resp := if r.Ok? then Rows(201, [r.value]) else ServerError;
  }

  /** The checks of the update route before the store is touched. */
  predicate RenameTaken(rows: seq<Crud.Row>, id: int, found: Crud.Row, items: Schemas.Items) {
    var name := NameIn(items);
    Truthy(name) && name != Crud.NameOf(found) &&
    var existing := Crud.FindByName(rows, name);
    existing.Some? && existing.value.id != id
  }

  /** `update_prompt_api_route` / `update_tool_api_route`. */
  method UpdateRoute(res: Resource, table: Crud.Table, id: int, body: Json) returns (resp: Response)
    requires table.Valid() && table.notNull == NotNull(res)
    modifies table
    ensures table.Valid()
    ensures match Schemas.Validate(UpdateFields(res), body, true)
      case Err(fields) => resp == Unprocessable(fields) && table.rows == old(table.rows)
      case Ok(items) =>
        match Crud.FindById(old(table.rows), id)
        case None => resp == NotFound(res) && table.rows == old(table.rows)
        case Some(found) =>
          if RenameTaken(old(table.rows), id, found, items) then
            resp == AlreadyExists(res, NameIn(items)) && table.rows == old(table.rows)
          else
            var k := Crud.IndexOfId(old(table.rows), id);
            var row := Crud.Row(id, Schemas.Assign(found.columns, items));
            if NullsRequired(items, table.notNull) then
              resp == ServerError && table.rows == old(table.rows)
            else
              resp == Rows(200, [row]) && table.rows == old(table.rows)[k := row]
  {
    var v := Schemas.Validate(UpdateFields(res), body, true);
    if v.Err? {
      return Unprocessable(v.error);
    }
    var items := v.value;
    var found := Crud.FindById(table.rows, id);
    if found.None? {
      return NotFound(res);
    }
    if RenameTaken(table.rows, id, found.value, items) {
      return AlreadyExists(res, NameIn(items));
    }
    ValidUpdateBody(res, body);
    var k := Crud.IndexOfId(table.rows, id);
    var row := Crud.Row(id, Schemas.Assign(found.value.columns, items));
    if NullsRequired(items, table.notNull) {
      NullIsRejected(table.rows, k, items, table.notNull);
    } else {
      RenameCheckFreesName(table.rows, k, items);
      PatchAdmissible(table.rows, k, items, table.notNull);
    }
    var r := table.Update(id, items);
    resp := if r.Ok? && r.value.Some? then Rows(200, [r.value.value]) else ServerError;
  }

  /** `delete_prompt_api_route` / `delete_tool_api_route`. */
  method DeleteRoute(res: Resource, table: Crud.Table, id: int) returns (resp: Response)
    requires table.Valid()
    modifies table
    ensures table.Valid()
    ensures Crud.FindById(old(table.rows), id).None? ==> resp == NotFound(res) && table.rows == old(table.rows)
    ensures Crud.FindById(old(table.rows), id).Some? ==>
      var k := Crud.IndexOfId(old(table.rows), id);
      resp == NoContent && table.rows == old(table.rows)[..k] + old(table.rows)[k + 1..] &&
      Crud.FindById(table.rows, id).None?
  {
    if Crud.FindById(table.rows, id).None? {
      return NotFound(res);
    }
    Crud.DeletedIsGone(table.rows, Crud.IndexOfId(table.rows, id));
    var _ := table.Delete(id);
    resp := NoContent;
  }

  // ----- Properties -----

  /** A valid creation body sets every NOT NULL column of its table to a string. */
  lemma ValidCreateBody(res: Resource, body: Json)
    requires Schemas.Validate(CreateFields(res), body, false).Ok?
    ensures var columns := Schemas.Columns(Schemas.Validate(CreateFields(res), body, false).value);
      forall c :: c in NotNull(res) ==> c in columns && columns[c].JStr?
    ensures NameIn(Schemas.Validate(CreateFields(res), body, false).value).JStr?
  {
    Schemas.FieldListsDistinct();
    Schemas.CreateDump(CreateFields(res), body);
    var fields := CreateFields(res);
    Schemas.ValidFieldAccepted(fields, body, false, 0);
    assert fields[0].key == "name" && fields[0].required && fields[0].kind == Schemas.Name;
    assert "name" in Schemas.Keys(fields);
    if res.Prompts? {
      Schemas.ValidFieldAccepted(fields, body, false, 1);
      assert fields[1].key == "content" && fields[1].required && fields[1].kind == Schemas.Text;
      assert "content" in Schemas.Keys(fields);
    }
  }

  /** A valid update body sets `name` to None or to a non-empty string, if at all. */
  lemma ValidUpdateBody(res: Resource, body: Json)
    requires Schemas.Validate(UpdateFields(res), body, true).Ok?
    ensures var name := NameIn(Schemas.Validate(UpdateFields(res), body, true).value);
      name == JNull || (name.JStr? && Truthy(name))
  {
    Schemas.FieldListsDistinct();
    var fields := UpdateFields(res);
    Schemas.UpdateDump(fields, body);
    Schemas.ValidFieldAccepted(fields, body, true, 0);
    assert fields[0].key == "name" && fields[0].kind == Schemas.OptName;
  }

  /**
   * A row built from items that fill every NOT NULL column, under a name no
   * row has, passes the commit: the create route never meets the
   * database's constraint.
   */
  lemma CreateAdmissible(rows: seq<Crud.Row>, items: Schemas.Items, notNull: set<string>)
    requires Crud.FindByName(rows, NameIn(items)).None?
    requires forall c :: c in notNull ==> c in Schemas.Columns(items) && Schemas.Columns(items)[c] != JNull
    ensures Crud.Admissible(rows, Crud.Row(Crud.NextId(rows), Schemas.Columns(items)), notNull)
  {
  }

  /**
   * The name a patched row ends up with is its old one, None, or a name no
   * row has; with no NOT NULL column set to None the patch passes the commit.
   */
  lemma PatchAdmissible(rows: seq<Crud.Row>, k: nat, items: Schemas.Items, notNull: set<string>)
    requires Crud.ValidRows(rows, notNull) && k < |rows|
    requires !NullsRequired(items, notNull)
    requires var name := NameIn(items);
      "name" in Schemas.Columns(items) ==>
        name == JNull || name == Crud.NameOf(rows[k]) || forall j :: 0 <= j < |rows| ==> Crud.NameOf(rows[j]) != name
    ensures Crud.Admissible(rows, Crud.Row(rows[k].id, Schemas.Assign(rows[k].columns, items)), notNull)
  {
    var columns := Schemas.Columns(items);
    var row := Crud.Row(rows[k].id, Schemas.Assign(rows[k].columns, items));
    Schemas.AssignIsUnion(rows[k].columns, items);
    assert Crud.Complete(rows[k], notNull);
    assert Crud.Complete(row, notNull) by {
      forall c | c in notNull ensures c in row.columns && row.columns[c] != JNull {
        if c in columns {
          assert !(c in notNull && c in columns && columns[c] == JNull);
        }
      }
    }
    if Crud.NameOf(row) != JNull {
      forall j | 0 <= j < |rows| && rows[j].id != row.id ensures Crud.NameOf(rows[j]) != Crud.NameOf(row) {
        if "name" !in columns || Crud.NameOf(row) == Crud.NameOf(rows[k]) {
          assert Crud.NameOf(row) == Crud.NameOf(rows[k]);
          assert j != k;
          if j < k {
            assert Crud.NameOf(rows[j]) == JNull || Crud.NameOf(rows[j]) != Crud.NameOf(rows[k]);
          } else {
            assert Crud.NameOf(rows[k]) == JNull || Crud.NameOf(rows[k]) != Crud.NameOf(rows[j]);
          }
        }
      }
    }
  }

  /** When the rename check passes, the new name is the old one, None, or free. */
  lemma RenameCheckFreesName(rows: seq<Crud.Row>, k: nat, items: Schemas.Items)
    requires Crud.IdsUnique(rows) && k < |rows| && Crud.IndexOfId(rows, rows[k].id) == k
    requires NameIn(items) == JNull || Truthy(NameIn(items))
    requires !RenameTaken(rows, rows[k].id, rows[k], items)
    ensures var name := NameIn(items);
      name == JNull || name == Crud.NameOf(rows[k]) || forall j :: 0 <= j < |rows| ==> Crud.NameOf(rows[j]) != name
  {
    var name := NameIn(items);
    if name != JNull && name != Crud.NameOf(rows[k]) {
      assert Crud.FindByName(rows, name).None?;
    }
  }

  /** Setting a NOT NULL column to None fails the commit. */
  lemma NullIsRejected(rows: seq<Crud.Row>, k: nat, items: Schemas.Items, notNull: set<string>)
    requires k < |rows| && NullsRequired(items, notNull)
    ensures !Crud.Admissible(rows, Crud.Row(rows[k].id, Schemas.Assign(rows[k].columns, items)), notNull)
  {
    var c :| c in notNull && c in Schemas.Columns(items) && Schemas.Columns(items)[c] == JNull;
    Schemas.AssignIsUnion(rows[k].columns, items);
  }

  /** Without query parameters, the list routes return the first hundred rows. */
  lemma ListDefaults(rows: seq<Crud.Row>)
    ensures ListRoute(rows, DefaultSkip, DefaultLimit) == Rows(200, rows[..if |rows| < 100 then |rows| else 100])
  {
    Crud.PageIsSlice(rows, 0, 100);
  }
}
