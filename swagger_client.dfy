/**
 * The vendored Swagger 1.2 client: it files the declarations of a resource
 * listing as named resources, finds an operation of a resource by its
 * `nickname`, and turns a call of that operation into an HTTP request
 * (path parameters substituted, query and body parameters split out,
 * base path and path joined with one slash).
 *
 * Every document fetch (the listing itself and each resource's own
 * declaration) is the parameter `fetch`: the decoded document, or `None`
 * when the GET or its `.json()` raised.
 */
module SwaggerClient {
  import opened Wrappers
  import opened Json
  import Text
  import HttpClient
  import SwaggerModel

  /** A GET of a document followed by `.json()`: the decoded document, or `None` when either raised. */
  type Fetch = string -> Option<Json>

  /** A `SimplifiedResource` once constructed; nothing changes it afterwards. */
  datatype Resource = Resource(declaration: Json, name: Json, basePath: Json, operationsSpec: Json)

  // ----- Resource names and construction -----

  /** The name `_process_apis` derives from a declaration path: its last `/`-segment with every `.json` removed. */
  function NameFromPath(path: string): string {
    Text.ReplaceAll(Text.Last(Text.Split(path, "/")), ".json", "")
  }

  /**
   * The key under which `_process_apis` files a declaration: its `name` when
   * truthy, otherwise the name derived from a truthy `path`, otherwise the
   * falsy `name` itself (and the declaration is skipped).
   */
  function ResourceName(decl: Json): (r: Result<Json, Exc>)
    ensures r.Ok? ==> decl.JObj?
  {
    var name :- Get(decl, "name", JNull);
    if Truthy(name) then Ok(name)
    else
      var path :- Get(decl, "path", JNull);
      if !Truthy(path) then Ok(name)
      else if !path.JStr? then Err(NoAttribute(TypeName(path), "split"))
      else Ok(JStr(NameFromPath(path.s)))
  }

  /** The derived name is what follows the last `/`, without `.json`; it never holds a `/`. */
  lemma NameFromPathShape(path: string)
    ensures NameFromPath(path) == Text.ReplaceAll(Text.AfterLast(path, '/'), ".json", "")
    ensures forall k :: 0 <= k < |NameFromPath(path)| ==> NameFromPath(path)[k] != '/'
  {
    assert "/" == ['/'];
    Text.SplitLastIsAfterLast(path, '/');
    var seg := Text.AfterLast(path, '/');
    AfterLastHasNo(path, '/');
    ReplaceKeepsOut(seg, ".json", '/');
  }

  lemma AfterLastHasNo(s: string, c: char)
    ensures forall k :: 0 <= k < |Text.AfterLast(s, c)| ==> Text.AfterLast(s, c)[k] != c
  {
    var i := Text.FindLast(s, c);
    if i >= 0 {
      Text.RSplitRejoins(s, c);
    }
  }

  /** Removing a pattern never introduces a character. */
  lemma {:induction false} ReplaceKeepsOut(s: string, pat: string, c: char)
    requires pat != []
    requires forall k :: 0 <= k < |s| ==> s[k] != c
    ensures forall k :: 0 <= k < |Text.ReplaceAll(s, pat, "")| ==> Text.ReplaceAll(s, pat, "")[k] != c
    decreases |s|
  {
    if |s| >= |pat| {
      if s[..|pat|] == pat {
        ReplaceKeepsOut(s[|pat|..], pat, c);
      } else {
        ReplaceKeepsOut(s[1..], pat, c);
      }
    }
  }

  /** A truthy `name` wins; otherwise a string `path` names the declaration; otherwise it is skipped. */
  lemma ResourceNameRule(decl: map<string, Json>)
    ensures "name" in decl && Truthy(decl["name"]) ==> ResourceName(JObj(decl)) == Ok(decl["name"])
    ensures !("name" in decl && Truthy(decl["name"])) && "path" in decl && decl["path"].JStr? && Truthy(decl["path"])
      ==> ResourceName(JObj(decl)) == Ok(JStr(NameFromPath(decl["path"].s)))
    ensures !("name" in decl && Truthy(decl["name"])) && !("path" in decl && Truthy(decl["path"]))
      ==> ResourceName(JObj(decl)).Ok? && !Truthy(ResourceName(JObj(decl)).value)
  {
  }

  /** The URL of a resource's own declaration: the listing URL up to its last `/`, then the declaration `path`. */
  function SpecUrl(discoveryUrl: string, path: string): string {
    Text.RSplitHead(discoveryUrl, '/') + path
  }

  /** When the listing URL has a `/` and `path` starts with one, the resource URL swaps the listing URL's last segment for `path`. */
  lemma SpecUrlReplacesLastSegment(discoveryUrl: string, segment: string)
    requires Text.FindLast(discoveryUrl, '/') >= 0
    ensures discoveryUrl == Text.RSplitHead(discoveryUrl, '/') + "/" + Text.AfterLast(discoveryUrl, '/')
    ensures SpecUrl(discoveryUrl, "/" + segment) == Text.RSplitHead(discoveryUrl, '/') + "/" + segment
  {
    Text.RSplitRejoins(discoveryUrl, '/');
  }

  /**
   * `SimplifiedResource(client, declaration, http_client)`: a declaration with
   * a truthy `path` has its own declaration fetched, and falls back to the
   * listing's declaration when the fetch fails.
   */
  function MakeResource(docs: map<string, Json>, discoveryUrl: string, decl: map<string, Json>, fetch: Fetch, py: Builtins): (res: Resource)
    ensures res.declaration == JObj(decl)
    ensures res.name == (if "name" in decl then decl["name"] else JStr("unknown_resource"))
    ensures res.basePath == (if "basePath" in docs then docs["basePath"] else JStr(""))
    ensures !("path" in decl && Truthy(decl["path"])) ==> res.operationsSpec == JObj(decl)
    ensures "path" in decl && Truthy(decl["path"]) ==>
      var fetched := fetch(SpecUrl(discoveryUrl, Str(py, decl["path"])));
      res.operationsSpec == if fetched.Some? then fetched.value else JObj(decl)
  {
    var name := if "name" in decl then decl["name"] else JStr("unknown_resource");
    var basePath := if "basePath" in docs then docs["basePath"] else JStr("");
    var path := if "path" in decl then decl["path"] else JNull;
    var spec :=
      if Truthy(path) then
        match fetch(SpecUrl(discoveryUrl, Str(py, path)))
        case Some(d) => d
        case None => JObj(decl)
      else JObj(decl);
    Resource(JObj(decl), name, basePath, spec)
  }

  // ----- Filing the declarations of a listing -----

  /** One turn of the `_process_apis` loop. */
  function Step(acc: map<Json, Resource>, docs: map<string, Json>, discoveryUrl: string, decl: Json, fetch: Fetch, py: Builtins): Result<map<Json, Resource>, Exc> {
    var name :- ResourceName(decl);
    if !Truthy(name) then Ok(acc)
    else if !Hashable(name) then Err(TypeError)
    else Ok(acc[name := MakeResource(docs, discoveryUrl, decl.fields, fetch, py)])
  }

  /** The resource table after the loop has visited `decls` in order. */
  function Build(docs: map<string, Json>, discoveryUrl: string, decls: seq<Json>, fetch: Fetch, py: Builtins): (r: Result<map<Json, Resource>, Exc>)
    ensures r.Ok? ==> forall name :: name in r.value ==> Truthy(name) && Hashable(name)
    ensures r.Err? ==> r.error.AttributeError? || r.error.TypeError?
    decreases |decls|
  {
    if decls == [] then Ok(map[])
    else
      var acc :- Build(docs, discoveryUrl, decls[..|decls| - 1], fetch, py);
      Step(acc, docs, discoveryUrl, decls[|decls| - 1], fetch, py)
  }

  /** `_process_apis` on a loaded listing: nothing without `apis`, otherwise every declaration in turn. */
  function Processed(apiDocs: Json, discoveryUrl: string, fetch: Fetch, py: Builtins): (r: Result<map<Json, Resource>, Exc>)
    ensures r.Ok? ==> forall name :: name in r.value ==> Truthy(name) && Hashable(name)
    ensures r.Err? ==> r.error.AttributeError? || r.error.TypeError?
  {
    var hasApis :- Contains(apiDocs, "apis");
    if !hasApis then Ok(map[])
    else
      var apis :- Index(apiDocs, "apis");
      var decls :- Iterate(py, apis);
      Build(apiDocs.fields, discoveryUrl, decls, fetch, py)
  }

  /** A listing that is a dict without `apis` yields no resources and no error. */
  lemma NoApisNoResources(docs: map<string, Json>, discoveryUrl: string, fetch: Fetch, py: Builtins)
    requires "apis" !in docs
    ensures Processed(JObj(docs), discoveryUrl, fetch, py) == Ok(map[])
  {
  }

  /** Once a prefix of the declarations raised, so does the whole loop, with the same exception. */
  lemma {:induction false} BuildErrPersists(docs: map<string, Json>, discoveryUrl: string, decls: seq<Json>, j: nat, fetch: Fetch, py: Builtins)
    requires j <= |decls|
    requires Build(docs, discoveryUrl, decls[..j], fetch, py).Err?
    ensures Build(docs, discoveryUrl, decls, fetch, py) == Build(docs, discoveryUrl, decls[..j], fetch, py)
    decreases |decls| - j
  {
    if j < |decls| {
      var front := decls[..|decls| - 1];
      assert front[..j] == decls[..j];
      BuildErrPersists(docs, discoveryUrl, front, j, fetch, py);
    } else {
      assert decls[..j] == decls;
    }
  }

  /**
   * A listing whose `apis` is a non-empty dict: the loop visits its keys,
   * and the first of them, a string, has no `get`.
   */
  lemma DictApisRaise(docs: map<string, Json>, m: map<string, Json>, discoveryUrl: string, fetch: Fetch, py: Builtins)
    requires "apis" in docs && docs["apis"] == JObj(m) && m != map[] && ListsKeys(py.keys(m), m)
    ensures Processed(JObj(docs), discoveryUrl, fetch, py) == Err(NoAttribute("str", "get"))
  {
    var k :| k in m;
    assert k in py.keys(m);
    var decls := Iterate(py, JObj(m)).value;
    FirstStringRaises(docs, discoveryUrl, decls, fetch, py);
    BuildErrPersists(docs, discoveryUrl, decls, 1, fetch, py);
  }

  lemma FirstStringRaises(docs: map<string, Json>, discoveryUrl: string, decls: seq<Json>, fetch: Fetch, py: Builtins)
    requires decls != [] && decls[0].JStr?
    ensures Build(docs, discoveryUrl, decls[..1], fetch, py) == Err(NoAttribute("str", "get"))
  {
    assert decls[..1][..0] == [];
    StrHasNoGet(decls[0].s, "name", JNull);
  }

  /** A declaration that names itself `name` (with a truthy name) and has no later namesake. */
  predicate LastNamed(decls: seq<Json>, j: int, name: Json)
    requires 0 <= j < |decls|
  {
    ResourceName(decls[j]) == Ok(name) && Truthy(name)
    && forall k :: j < k < |decls| ==> ResourceName(decls[k]) != Ok(name)
  }

  /** The table's keys are exactly the truthy names the declarations yield. */
  lemma {:induction false} BuildKeys(docs: map<string, Json>, discoveryUrl: string, decls: seq<Json>, fetch: Fetch, py: Builtins, name: Json)
    requires Build(docs, discoveryUrl, decls, fetch, py).Ok?
    ensures name in Build(docs, discoveryUrl, decls, fetch, py).value <==>
      exists j :: 0 <= j < |decls| && ResourceName(decls[j]) == Ok(name) && Truthy(name)
    decreases |decls|
  {
    if decls != [] {
      var n := |decls| - 1;
      var front := decls[..n];
      BuildKeys(docs, discoveryUrl, front, fetch, py, name);
      var before := Build(docs, discoveryUrl, front, fetch, py).value;
      var table := Build(docs, discoveryUrl, decls, fetch, py).value;
      assert Step(before, docs, discoveryUrl, decls[n], fetch, py) == Ok(table);
      if name in table && name !in before {
        assert ResourceName(decls[n]) == Ok(name) && Truthy(name);
      }
      if exists j :: 0 <= j < |decls| && ResourceName(decls[j]) == Ok(name) && Truthy(name) {
        var j :| 0 <= j < |decls| && ResourceName(decls[j]) == Ok(name) && Truthy(name);
        if j < n {
          assert front[j] == decls[j];
        }
      }
    }
  }

  /** Each key holds the resource built from the last declaration with that name: later declarations overwrite earlier ones. */
  lemma {:induction false} BuildLastWins(docs: map<string, Json>, discoveryUrl: string, decls: seq<Json>, fetch: Fetch, py: Builtins, j: int, name: Json)
    requires Build(docs, discoveryUrl, decls, fetch, py).Ok?
    requires 0 <= j < |decls| && LastNamed(decls, j, name)
    ensures name in Build(docs, discoveryUrl, decls, fetch, py).value
    ensures Build(docs, discoveryUrl, decls, fetch, py).value[name] == MakeResource(docs, discoveryUrl, decls[j].fields, fetch, py)
    decreases |decls|
  {
    var n := |decls| - 1;
    var front := decls[..n];
    var before := Build(docs, discoveryUrl, front, fetch, py).value;
    var table := Build(docs, discoveryUrl, decls, fetch, py).value;
    assert Step(before, docs, discoveryUrl, decls[n], fetch, py) == Ok(table);
    if j < n {
      LastNamedFront(decls, j, name);
      BuildLastWins(docs, discoveryUrl, front, fetch, py, j, name);
      StepKeepsOthers(before, docs, discoveryUrl, decls[n], fetch, py, name);
    } else {
      StepFilesName(before, docs, discoveryUrl, decls[n], fetch, py, name);
    }
  }

  lemma LastNamedFront(decls: seq<Json>, j: int, name: Json)
    requires 0 <= j < |decls| - 1 && LastNamed(decls, j, name)
    ensures LastNamed(decls[..|decls| - 1], j, name)
    ensures ResourceName(decls[|decls| - 1]) != Ok(name)
  {
    var front := decls[..|decls| - 1];
    assert front[j] == decls[j];
    forall k | j < k < |front| ensures ResourceName(front[k]) != Ok(name) {
      assert front[k] == decls[k];
    }
  }

  /** A turn for a declaration with another name leaves an entry as it was. */
  lemma StepKeepsOthers(acc: map<Json, Resource>, docs: map<string, Json>, discoveryUrl: string, decl: Json, fetch: Fetch, py: Builtins, name: Json)
    requires Step(acc, docs, discoveryUrl, decl, fetch, py).Ok?
    requires ResourceName(decl) != Ok(name) && name in acc
    ensures name in Step(acc, docs, discoveryUrl, decl, fetch, py).value
    ensures Step(acc, docs, discoveryUrl, decl, fetch, py).value[name] == acc[name]
  {
  }

  /** A turn for a declaration with a truthy name files the resource built from it under that name. */
  lemma StepFilesName(acc: map<Json, Resource>, docs: map<string, Json>, discoveryUrl: string, decl: Json, fetch: Fetch, py: Builtins, name: Json)
    requires Step(acc, docs, discoveryUrl, decl, fetch, py).Ok?
    requires ResourceName(decl) == Ok(name) && Truthy(name)
    ensures decl.JObj? && name in Step(acc, docs, discoveryUrl, decl, fetch, py).value
    ensures Step(acc, docs, discoveryUrl, decl, fetch, py).value[name] == MakeResource(docs, discoveryUrl, decl.fields, fetch, py)
  {
  }

  // ----- Operations of a resource -----

  /** The search over operation groups, `for api_def in apis: for op in api_def.get('operations', [])`. */
  function SearchGroups(groups: seq<Json>, opName: string, py: Builtins): (r: Result<Option<Json>, Exc>)
    ensures r.Ok? && r.value.Some? ==> r.value.value.JObj? && Get(r.value.value, "nickname", JNull) == Ok(JStr(opName))
  {
    if groups == [] then Ok(None)
    else
      var ops :- Get(groups[0], "operations", JArr([]));
      var items :- Iterate(py, ops);
      var found :- FirstWith(items, "nickname", opName);
      if found.Some? then Ok(found) else SearchGroups(groups[1..], opName, py)
  }

  /**
   * `SimplifiedResource.__getattr__(name)`: a full declaration (truthy, with
   * `apis`) is searched group by group; otherwise a top-level `operations`
   * list is searched; a miss raises `AttributeError`.
   */
  function FindOperation(res: Resource, opName: string, py: Builtins): (r: Result<Json, Exc>)
    ensures r.Ok? ==> r.value.JObj? && Get(r.value, "nickname", JNull) == Ok(JStr(opName))
  {
    var spec := res.operationsSpec;
    var hasApis :- if Truthy(spec) then Contains(spec, "apis") else Ok(false);
    var found :-
      if hasApis then
        var apis :- Index(spec, "apis");
        var groups :- Iterate(py, apis);
        SearchGroups(groups, opName, py)
      else
        var hasOps :- Contains(spec, "operations");
        if hasOps then
          var ops :- Index(spec, "operations");
          var items :- Iterate(py, ops);
          FirstWith(items, "nickname", opName)
        else Ok(None);
    if found.Some? then Ok(found.value)
    else Err(AttributeError("Resource '" + Str(py, res.name) + "' has no operation '" + opName + "'"))
  }

  /** Without `apis`, a list of operation dicts is searched: the first operation with the nickname is returned, and a miss raises. */
  lemma FindFlatOperation(res: Resource, ops: seq<Json>, opName: string, py: Builtins)
    requires res.operationsSpec.JObj? && "apis" !in res.operationsSpec.fields
    requires "operations" in res.operationsSpec.fields && res.operationsSpec.fields["operations"] == JArr(ops)
    requires forall k :: 0 <= k < |ops| ==> ops[k].JObj?
    ensures FindOperation(res, opName, py).Ok? <==> exists k :: 0 <= k < |ops| && Get(ops[k], "nickname", JNull) == Ok(JStr(opName))
    ensures FindOperation(res, opName, py).Ok? ==>
      exists k :: 0 <= k < |ops| && ops[k] == FindOperation(res, opName, py).value && NoneWithBefore(ops, "nickname", opName, k)
    ensures FindOperation(res, opName, py).Err? ==> FindOperation(res, opName, py).error.AttributeError?
  {
    FirstWithTotal(ops, "nickname", opName);
    FirstWithIsFirst(ops, "nickname", opName);
  }

  /**
   * A declaration whose `apis` list is empty finds no operation, even when it
   * also carries a top-level `operations` list holding the nickname: the
   * `elif` branch is not reached once `apis` is present.
   */
  lemma ApisShadowOperations(res: Resource, opName: string, py: Builtins)
    requires res.operationsSpec.JObj? && "apis" in res.operationsSpec.fields
    requires res.operationsSpec.fields["apis"] == JArr([])
    ensures FindOperation(res, opName, py).Err? && FindOperation(res, opName, py).error.AttributeError?
  {
    assert Truthy(res.operationsSpec);
  }

  /** A group of operations as the search reads it: a dict whose `operations`, when present, is a list of dicts. */
  predicate GroupShaped(group: Json) {
    group.JObj? &&
    ("operations" in group.fields ==>
      group.fields["operations"].JArr? &&
      forall i :: 0 <= i < |group.fields["operations"].items| ==> group.fields["operations"].items[i].JObj?)
  }

  /** The operations of a group, `api_def.get('operations', [])`. */
  function OpsOf(group: Json): (ops: seq<Json>)
    requires GroupShaped(group)
    ensures forall i :: 0 <= i < |ops| ==> ops[i].JObj?
  {
    if "operations" in group.fields then group.fields["operations"].items else []
  }

  /** `op` is a dict whose `nickname` is `opName`. */
  predicate Nicknamed(op: Json, opName: string) {
    op.JObj? && Get(op, "nickname", JNull) == Ok(JStr(opName))
  }

  /** Some operation of the group is nicknamed `opName`. */
  predicate GroupHas(group: Json, opName: string)
    requires GroupShaped(group)
  {
    exists o :: 0 <= o < |OpsOf(group)| && Nicknamed(OpsOf(group)[o], opName)
  }

  /** Every group is shaped as the search reads it. */
  predicate AllGroupsShaped(groups: seq<Json>) {
    forall g :: 0 <= g < |groups| ==> GroupShaped(groups[g])
  }

  /** `found` is operation `o` of group `g`, nicknamed `opName`, and no earlier group or earlier operation of that group is. */
  predicate FirstInGroups(groups: seq<Json>, opName: string, found: Json, g: int, o: int)
    requires AllGroupsShaped(groups)
  {
    0 <= g < |groups| && 0 <= o < |OpsOf(groups[g])| && found == OpsOf(groups[g])[o] && Nicknamed(found, opName) &&
    (forall h :: 0 <= h < g ==> !GroupHas(groups[h], opName)) &&
    (forall p :: 0 <= p < o ==> !Nicknamed(OpsOf(groups[g])[p], opName))
  }

  /**
   * Over well-shaped groups the search never raises; it finds an operation
   * exactly when some group holds one with the nickname, and then the first
   * one in group order and, within the group, in operation order.
   */
  lemma {:induction false} SearchGroupsFinds(groups: seq<Json>, opName: string, py: Builtins)
    requires AllGroupsShaped(groups)
    ensures SearchGroups(groups, opName, py).Ok?
    ensures SearchGroups(groups, opName, py).value.Some? <==> exists g :: 0 <= g < |groups| && GroupHas(groups[g], opName)
    ensures SearchGroups(groups, opName, py).value.Some? ==>
      exists g, o :: FirstInGroups(groups, opName, SearchGroups(groups, opName, py).value.value, g, o)
    decreases |groups|
  {
    if groups != [] {
      var items := OpsOf(groups[0]);
      SearchGroupsHead(groups, opName, py);
      FirstWithIsFirst(items, "nickname", opName);
      var found := FirstWith(items, "nickname", opName).value;
      if found.Some? {
        var o :| 0 <= o < |items| && items[o] == found.value && NoneWithBefore(items, "nickname", opName, o);
        assert Nicknamed(items[o], opName);
        assert FirstInGroups(groups, opName, found.value, 0, o);
      } else {
        assert !GroupHas(groups[0], opName) by {
          assert NoneWithBefore(items, "nickname", opName, |items|);
        }
        var rest := groups[1..];
        assert AllGroupsShaped(rest) by {
          forall g | 0 <= g < |rest| ensures GroupShaped(rest[g]) { assert rest[g] == groups[g + 1]; }
        }
        SearchGroupsFinds(rest, opName, py);
        ShiftGroups(groups, opName, SearchGroups(rest, opName, py));
      }
    }
  }

  /** Over a well-shaped first group, the search looks through its operations and moves on only when none matches. */
  lemma SearchGroupsHead(groups: seq<Json>, opName: string, py: Builtins)
    requires groups != [] && GroupShaped(groups[0])
    ensures FirstWith(OpsOf(groups[0]), "nickname", opName).Ok?
    ensures var found := FirstWith(OpsOf(groups[0]), "nickname", opName);
      SearchGroups(groups, opName, py) == if found.value.Some? then found else SearchGroups(groups[1..], opName, py)
  {
    var items := OpsOf(groups[0]);
    assert Get(groups[0], "operations", JArr([])) == Ok(JArr(items));
    FirstWithTotal(items, "nickname", opName);
  }

  /** The search's answers over the groups after the first, when the first has no match, read over all the groups. */
  lemma ShiftGroups(groups: seq<Json>, opName: string, r: Result<Option<Json>, Exc>)
    requires groups != [] && AllGroupsShaped(groups) && AllGroupsShaped(groups[1..])
    requires !GroupHas(groups[0], opName)
    requires r.Ok?
    requires r.value.Some? <==> exists g :: 0 <= g < |groups[1..]| && GroupHas(groups[1..][g], opName)
    requires r.value.Some? ==> exists g, o :: FirstInGroups(groups[1..], opName, r.value.value, g, o)
    ensures r.value.Some? <==> exists g :: 0 <= g < |groups| && GroupHas(groups[g], opName)
    ensures r.value.Some? ==> exists g, o :: FirstInGroups(groups, opName, r.value.value, g, o)
  {
    var rest := groups[1..];
    if exists g :: 0 <= g < |groups| && GroupHas(groups[g], opName) {
      var g :| 0 <= g < |groups| && GroupHas(groups[g], opName);
      assert g > 0 && rest[g - 1] == groups[g];
    }
    if r.value.Some? {
      var g, o :| FirstInGroups(rest, opName, r.value.value, g, o);
      assert rest[g] == groups[g + 1];
      forall h | 0 <= h < g + 1 ensures !GroupHas(groups[h], opName) {
        if h > 0 { assert groups[h] == rest[h - 1]; }
      }
      assert FirstInGroups(groups, opName, r.value.value, g + 1, o);
    }
  }

  /**
   * A full declaration whose `apis` is a list of well-shaped groups: the
   * operation is found exactly when some group holds it, as the first match
   * in group-then-operation order; otherwise `AttributeError` is raised.
   */
  lemma FindGroupedOperation(res: Resource, opName: string, py: Builtins, groups: seq<Json>)
    requires res.operationsSpec.JObj? && "apis" in res.operationsSpec.fields
    requires res.operationsSpec.fields["apis"] == JArr(groups) && AllGroupsShaped(groups)
    ensures FindOperation(res, opName, py).Ok? <==> exists g :: 0 <= g < |groups| && GroupHas(groups[g], opName)
    ensures FindOperation(res, opName, py).Err? ==> FindOperation(res, opName, py).error.AttributeError?
    ensures FindOperation(res, opName, py).Ok? ==> exists g, o :: FirstInGroups(groups, opName, FindOperation(res, opName, py).value, g, o)
  {
    assert Truthy(res.operationsSpec);
    SearchGroupsFinds(groups, opName, py);
  }

  // ----- Calling an operation -----

  /** `param` declares parameter `name` with `paramType` `kind`. */
  predicate Declares(param: Json, name: string, kind: string) {
    param.JObj? && "name" in param.fields && param.fields["name"] == JStr(name)
    && "paramType" in param.fields && param.fields["paramType"] == JStr(kind)
  }

  /** The placeholder `{name}` of a path template. */
  function Placeholder(name: string): (p: string)
    ensures p != []
  {
    "{" + name + "}"
  }

  /** One turn of the first `api_call` loop: a declared path parameter that was supplied fills its placeholders and is consumed. */
  function SubstStep(path: Json, args: map<string, Json>, param: Json, py: Builtins): Result<(Json, map<string, Json>), Exc> {
    var name :- Index(param, "name");
    var kind :- Index(param, "paramType");
    if kind != JStr("path") then Ok((path, args))
    else if !Hashable(name) then Err(TypeError)
    else if !(name.JStr? && name.s in args) then Ok((path, args))
    else if !path.JStr? then Err(NoAttribute(TypeName(path), "replace"))
    else Ok((JStr(Text.ReplaceAll(path.s, Placeholder(name.s), Str(py, args[name.s]))), args - {name.s}))
  }

  /** The path and the remaining arguments after the first loop has visited `params`. */
  function SubstAll(template: Json, params: seq<Json>, kwargs: map<string, Json>, py: Builtins): (r: Result<(Json, map<string, Json>), Exc>)
    ensures r.Ok? ==> r.value.1.Keys <= kwargs.Keys
    ensures r.Ok? && !template.JStr? ==> r.value.0 == template
    ensures r.Ok? && template.JStr? ==> r.value.0.JStr?
    decreases |params|
  {
    if params == [] then Ok((template, kwargs))
    else
      var acc :- SubstAll(template, params[..|params| - 1], kwargs, py);
      SubstStep(acc.0, acc.1, params[|params| - 1], py)
  }

  /** The query map, the body (`None` to start with) and the arguments still unconsumed. */
  datatype Partition = Partition(query: map<string, Json>, body: Json, rest: map<string, Json>)

  /** One turn of the second `api_call` loop: a supplied `query` parameter enters the query map, a supplied `body` parameter replaces the body. */
  function PartStep(acc: Partition, param: Json): Result<Partition, Exc> {
    var name :- Index(param, "name");
    if !Hashable(name) then Err(TypeError)
    else if !(name.JStr? && name.s in acc.rest) then Ok(acc)
    else
      var kind :- Index(param, "paramType");
      var value := acc.rest[name.s];
      if kind == JStr("query") then Ok(Partition(acc.query[name.s := value], acc.body, acc.rest - {name.s}))
      else if kind == JStr("body") then Ok(Partition(acc.query, value, acc.rest - {name.s}))
      else Ok(acc)
  }

  /** The partition after the second loop has visited `params`. */
  function PartAll(params: seq<Json>, args: map<string, Json>): (r: Result<Partition, Exc>)
    ensures r.Ok? ==> r.value.rest.Keys <= args.Keys && r.value.query.Keys <= args.Keys
    ensures r.Ok? ==> r.value.query.Keys !! r.value.rest.Keys
    decreases |params|
  {
    if params == [] then Ok(Partition(map[], JNull, args))
    else
      var acc :- PartAll(params[..|params| - 1], args);
      PartStep(acc, params[|params| - 1])
  }

  /** `base[:-1] + path`, `base + '/' + path` or `base + path`, by whether `base` ends and `path` starts with `/`. */
  function JoinUrl(base: string, path: string): string {
    if Text.EndsWith(base, "/") && Text.StartsWith(path, "/") then base[..|base| - 1] + path
    else if !Text.EndsWith(base, "/") && !Text.StartsWith(path, "/") then base + "/" + path
    else base + path
  }

  function DropTrailingSlash(s: string): string {
    if Text.EndsWith(s, "/") then s[..|s| - 1] else s
  }

  function DropLeadingSlash(s: string): string {
    if Text.StartsWith(s, "/") then s[1..] else s
  }

  /** Whatever slashes meet at the seam, the joined URL has exactly one there. */
  lemma JoinUrlSeam(base: string, path: string)
    ensures JoinUrl(base, path) == DropTrailingSlash(base) + "/" + DropLeadingSlash(path)
  {
    var b, p := DropTrailingSlash(base), DropLeadingSlash(path);
    TrailingSlash(base);
    LeadingSlash(path);
    if Text.EndsWith(base, "/") && Text.StartsWith(path, "/") {
      assert JoinUrl(base, path) == b + ("/" + p);
    } else if Text.EndsWith(base, "/") {
      assert JoinUrl(base, path) == (b + "/") + p;
    } else if Text.StartsWith(path, "/") {
      assert JoinUrl(base, path) == b + ("/" + p);
    }
  }

  lemma TrailingSlash(s: string)
    ensures Text.EndsWith(s, "/") ==> s == DropTrailingSlash(s) + "/"
    ensures !Text.EndsWith(s, "/") ==> s == DropTrailingSlash(s)
  {
    if Text.EndsWith(s, "/") {
      assert s == s[..|s| - 1] + "/";
    }
  }

  lemma LeadingSlash(s: string)
    ensures Text.StartsWith(s, "/") ==> s == "/" + DropLeadingSlash(s)
    ensures !Text.StartsWith(s, "/") ==> s == DropLeadingSlash(s)
  {
    if Text.StartsWith(s, "/") {
      assert s == "/" + s[1..];
    }
  }

  /** The URL join on the base path and path as Python values: both must be strings. */
  function FullUrl(base: Json, path: Json): Result<string, Exc> {
    if !base.JStr? then Err(NoAttribute(TypeName(base), "endswith"))
    else if !path.JStr? then Err(NoAttribute(TypeName(path), "startswith"))
    else Ok(JoinUrl(base.s, path.s))
  }

  /** What `api_call` hands to the HTTP client: method, full URL, query parameters and body. */
  datatype Plan = Plan(verb: Json, url: string, query: map<string, Json>, body: Json)

  /** Everything `api_call` computes before it sends the request. */
  function PlanCall(res: Resource, op: Json, kwargs: map<string, Json>, py: Builtins): (r: Result<Plan, Exc>)
    ensures r.Ok? ==> op.JObj? && "method" in op.fields && "path" in op.fields && r.value.verb == op.fields["method"]
    ensures r.Ok? ==> r.value.query.Keys <= kwargs.Keys
  {
    var verb :- Index(op, "method");
    var template :- Index(op, "path");
    var declared :- Get(op, "parameters", JArr([]));
    var params :- Iterate(py, declared);
    var sub :- SubstAll(template, params, kwargs, py);
    var part :- PartAll(params, sub.1);
    var base :- Get(res.operationsSpec, "basePath", res.basePath);
    var url :- FullUrl(base, sub.0);
    Ok(Plan(verb, url, part.query, part.body))
  }

  /** The `MockHttpResponse` that `api_call` returns: it wraps the whole `(data, response)` pair and claims status 200. */
  datatype MockResponse = MockResponse(data: (Json, HttpClient.Response), status: int)

  /** `api_call` returns the mock response together with the operation's own declaration. */
  datatype CallResult = CallResult(response: MockResponse, operation: Json)

  /** The request `api_call` sends for a plan; a falsy body is sent as no data. */
  function Perform(plan: Plan, op: Json, hc: Option<HttpClient.SynchronousHttpClient>,
                   session: HttpClient.Sent -> HttpClient.Outcome, py: Builtins): (r: Result<CallResult, Exc>)
    reads if hc.Some? then {hc.value} else {}
    ensures hc.None? ==> r == Err(NoAttribute("NoneType", "request"))
    ensures hc.Some? ==>
      var sent := HttpClient.Sent(plan.verb, plan.url, Some(plan.query),
                                  if Truthy(plan.body) then Some(py.dumps(plan.body)) else None,
                                  map["Content-Type" := "application/json"], hc.value.auth, HttpClient.DefaultTimeout);
      var answer := HttpClient.Classify(session(sent), py.loads);
      (r.Ok? <==> answer.Ok?) && (r.Ok? ==> r.value.response.data == answer.value) && (r.Err? ==> r.error == answer.error)
    ensures r.Ok? ==> r.value.response.status == 200 && r.value.operation == op
  {
    if hc.None? then Err(NoAttribute("NoneType", "request"))
    else
      var data := if Truthy(plan.body) then Some(py.dumps(plan.body)) else None;
      var exchange := hc.value.Request(plan.verb, plan.url, Some(plan.query), data, None, HttpClient.DefaultTimeout, session, py.loads);
      var answer :- exchange.1;
      Ok(CallResult(MockResponse(answer, 200), op))
  }

  /** `api_call(**kwargs)` end to end. */
  function CallSpec(res: Resource, op: Json, kwargs: map<string, Json>, hc: Option<HttpClient.SynchronousHttpClient>,
                    session: HttpClient.Sent -> HttpClient.Outcome, py: Builtins): (r: Result<CallResult, Exc>)
    reads if hc.Some? then {hc.value} else {}
    ensures PlanCall(res, op, kwargs, py).Err? ==> r == Err(PlanCall(res, op, kwargs, py).error)
    ensures PlanCall(res, op, kwargs, py).Ok? ==> r == Perform(PlanCall(res, op, kwargs, py).value, op, hc, session, py)
    ensures r.Ok? ==> r.value.response.status == 200 && r.value.operation == op
  {
    match PlanCall(res, op, kwargs, py)
    case Ok(plan) => Perform(plan, op, hc, session, py)
    case Err(e) => Err(e)
  }

  lemma {:induction false} SubstErrPersists(template: Json, params: seq<Json>, j: nat, kwargs: map<string, Json>, py: Builtins)
    requires j <= |params|
    requires SubstAll(template, params[..j], kwargs, py).Err?
    ensures SubstAll(template, params, kwargs, py) == SubstAll(template, params[..j], kwargs, py)
    decreases |params| - j
  {
    if j < |params| {
      var front := params[..|params| - 1];
      assert front[..j] == params[..j];
      SubstErrPersists(template, front, j, kwargs, py);
    } else {
      assert params[..j] == params;
    }
  }

  lemma {:induction false} PartErrPersists(params: seq<Json>, j: nat, args: map<string, Json>)
    requires j <= |params|
    requires PartAll(params[..j], args).Err?
    ensures PartAll(params, args) == PartAll(params[..j], args)
    decreases |params| - j
  {
    if j < |params| {
      var front := params[..|params| - 1];
      assert front[..j] == params[..j];
      PartErrPersists(front, j, args);
    } else {
      assert params[..j] == params;
    }
  }

  /** The first `api_call` loop: replaces the placeholders of supplied path parameters, consuming those arguments. */
  method SubstituteParams(template: Json, params: seq<Json>, kwargs: map<string, Json>, py: Builtins)
    returns (r: Result<(Json, map<string, Json>), Exc>)
    ensures r == SubstAll(template, params, kwargs, py)
  {
    var path := template;
    var args := kwargs;
    var i := 0;
    while i < |params|
      invariant 0 <= i <= |params|
      invariant SubstAll(template, params[..i], kwargs, py) == Ok((path, args))
    {
      assert params[..i + 1][..i] == params[..i];
      var name := Index(params[i], "name");
      var kind := Index(params[i], "paramType");
      if name.Err? || kind.Err? {
        SubstErrPersists(template, params, i + 1, kwargs, py);
        return Err(if name.Err? then name.error else kind.error);
      }
      if kind.value == JStr("path") {
        if !Hashable(name.value) {
          SubstErrPersists(template, params, i + 1, kwargs, py);
          return Err(TypeError);
        }
        if name.value.JStr? && name.value.s in args {
          if !path.JStr? {
            SubstErrPersists(template, params, i + 1, kwargs, py);
            return Err(NoAttribute(TypeName(path), "replace"));
          }
          var value := args[name.value.s];
          args := args - {name.value.s};
          path := JStr(Text.ReplaceAll(path.s, Placeholder(name.value.s), Str(py, value)));
        }
      }
      i := i + 1;
    }
    assert params[..i] == params;
    return Ok((path, args));
  }

  /** The second `api_call` loop: moves supplied query parameters into the query map and a supplied body parameter into the body. */
  method PartitionParams(params: seq<Json>, args: map<string, Json>) returns (r: Result<Partition, Exc>)
    ensures r == PartAll(params, args)
  {
    var query: map<string, Json> := map[];
    var body := JNull;
    var rest := args;
    var i := 0;
    while i < |params|
      invariant 0 <= i <= |params|
      invariant PartAll(params[..i], args) == Ok(Partition(query, body, rest))
    {
      assert params[..i + 1][..i] == params[..i];
      var name := Index(params[i], "name");
      if name.Err? {
        PartErrPersists(params, i + 1, args);
        return Err(name.error);
      }
      if !Hashable(name.value) {
        PartErrPersists(params, i + 1, args);
        return Err(TypeError);
      }
      if name.value.JStr? && name.value.s in rest {
        var kind := Index(params[i], "paramType");
        if kind.Err? {
          PartErrPersists(params, i + 1, args);
          return Err(kind.error);
        }
        if kind.value == JStr("query") {
          query := query[name.value.s := rest[name.value.s]];
          rest := rest - {name.value.s};
        } else if kind.value == JStr("body") {
          body := rest[name.value.s];
          rest := rest - {name.value.s};
        }
      }
      i := i + 1;
    }
    assert params[..i] == params;
    return Ok(Partition(query, body, rest));
  }

  /** `api_call(**kwargs)` for operation `op` of resource `res`, sent through `hc`. */
  method Call(res: Resource, op: Json, kwargs: map<string, Json>, hc: Option<HttpClient.SynchronousHttpClient>,
              session: HttpClient.Sent -> HttpClient.Outcome, py: Builtins) returns (r: Result<CallResult, Exc>)
    ensures r == CallSpec(res, op, kwargs, hc, session, py)
  {
    var verb := Index(op, "method");
    if verb.Err? { return Err(verb.error); }
    var template := Index(op, "path");
    if template.Err? { return Err(template.error); }
    // `op` is a dict now, so its `get` cannot raise.
    var declared := Get(op, "parameters", JArr([])).value;
    var params := Iterate(py, declared);
    if params.Err? { return Err(params.error); }
    var sub := SubstituteParams(template.value, params.value, kwargs, py);
    if sub.Err? { return Err(sub.error); }
    var part := PartitionParams(params.value, sub.value.1);
    if part.Err? { return Err(part.error); }
    var base := Get(res.operationsSpec, "basePath", res.basePath);
    if base.Err? { return Err(base.error); }
    var url := FullUrl(base.value, sub.value.0);
    if url.Err? { return Err(url.error); }
    var plan := Plan(verb.value, url.value, part.value.query, part.value.body);
    assert PlanCall(res, op, kwargs, py) == Ok(plan);
    if hc.None? {
      return Err(NoAttribute("NoneType", "request"));
    }
    var data := if Truthy(plan.body) then Some(py.dumps(plan.body)) else None;
    var exchange := hc.value.Request(plan.verb, plan.url, Some(plan.query), data, None, HttpClient.DefaultTimeout, session, py.loads);
    if exchange.1.Err? {
      return Err(exchange.1.error);
    }
    return Ok(CallResult(MockResponse(exchange.1.value, 200), op));
  }

  // ----- What a call plan sends -----

  /** The first loop only removes arguments, and never changes the value of one it keeps. */
  lemma {:induction false} SubstKeepsArgs(template: Json, params: seq<Json>, kwargs: map<string, Json>, py: Builtins)
    requires SubstAll(template, params, kwargs, py).Ok?
    ensures var args := SubstAll(template, params, kwargs, py).value.1;
      forall k :: k in args ==> k in kwargs && args[k] == kwargs[k]
    decreases |params|
  {
    if params != [] {
      SubstKeepsArgs(template, params[..|params| - 1], kwargs, py);
    }
  }

  /** A supplied argument that no parameter declares as `path` parameter survives the first loop. */
  lemma {:induction false} SubstKeepsUndeclared(template: Json, params: seq<Json>, kwargs: map<string, Json>, py: Builtins, k: string)
    requires SubstAll(template, params, kwargs, py).Ok?
    requires k in kwargs
    requires forall j :: 0 <= j < |params| ==> !Declares(params[j], k, "path")
    ensures k in SubstAll(template, params, kwargs, py).value.1
    decreases |params|
  {
    if params != [] {
      SubstKeepsUndeclared(template, params[..|params| - 1], kwargs, py, k);
    }
  }

  /** If no declared `path` parameter is supplied, the path template is used unchanged. */
  lemma {:induction false} PathUntouched(template: Json, params: seq<Json>, kwargs: map<string, Json>, py: Builtins)
    requires SubstAll(template, params, kwargs, py).Ok?
    requires forall j, k :: 0 <= j < |params| && k in kwargs ==> !Declares(params[j], k, "path")
    ensures SubstAll(template, params, kwargs, py).value == (template, kwargs)
    decreases |params|
  {
    if params != [] {
      PathUntouched(template, params[..|params| - 1], kwargs, py);
    }
  }

  /**
   * Only supplied, declared `query` parameters reach the query map, with the
   * values they were given; whatever enters the query map has left the
   * remaining arguments.
   */
  lemma {:induction false} QueryOnlyDeclared(params: seq<Json>, args: map<string, Json>)
    requires PartAll(params, args).Ok?
    ensures var p := PartAll(params, args).value;
      (forall k :: k in p.query ==> k in args && p.query[k] == args[k] && k !in p.rest)
      && (forall k :: k in p.query ==> exists j :: 0 <= j < |params| && Declares(params[j], k, "query"))
      && (forall k :: k in p.rest ==> k in args && p.rest[k] == args[k])
    decreases |params|
  {
    if params != [] {
      var front := params[..|params| - 1];
      QueryOnlyDeclared(front, args);
      var p := PartAll(params, args).value;
      forall k | k in p.query ensures exists j :: 0 <= j < |params| && Declares(params[j], k, "query") {
        var before := PartAll(front, args).value;
        if k in before.query {
          var j :| 0 <= j < |front| && Declares(front[j], k, "query");
          assert params[j] == front[j];
        } else {
          assert Declares(params[|params| - 1], k, "query");
        }
      }
    }
  }

  /** No two parameter declarations share a name. */
  predicate DistinctNames(params: seq<Json>) {
    forall i, j :: 0 <= i < j < |params| && params[i].JObj? && params[j].JObj? && "name" in params[i].fields && "name" in params[j].fields
      ==> params[i].fields["name"] != params[j].fields["name"]
  }

  /** With distinct declarations, every supplied `query` parameter is sent. */
  lemma {:induction false} QueryComplete(params: seq<Json>, args: map<string, Json>, j: int, k: string)
    requires PartAll(params, args).Ok?
    requires DistinctNames(params)
    requires 0 <= j < |params| && Declares(params[j], k, "query") && k in args
    ensures k in PartAll(params, args).value.query
    ensures PartAll(params, args).value.query[k] == args[k]
    decreases |params|
  {
    var n := |params| - 1;
    var front := params[..n];
    assert DistinctNames(front) by {
      forall a, b | 0 <= a < b < |front| ensures front[a] == params[a] && front[b] == params[b] { }
    }
    if j < n {
      assert front[j] == params[j];
      QueryComplete(front, args, j, k);
      assert !(params[n].JObj? && "name" in params[n].fields && params[n].fields["name"] == JStr(k));
    } else {
      NameUnseen(front, args, k);
    }
    QueryOnlyDeclared(params, args);
  }

  /** Before any declaration of `k` has been visited, `k` is still among the arguments. */
  lemma {:induction false} NameUnseen(params: seq<Json>, args: map<string, Json>, k: string)
    requires PartAll(params, args).Ok?
    requires k in args
    requires forall j :: 0 <= j < |params| && params[j].JObj? && "name" in params[j].fields ==> params[j].fields["name"] != JStr(k)
    ensures k in PartAll(params, args).value.rest
    decreases |params|
  {
    if params != [] {
      NameUnseen(params[..|params| - 1], args, k);
    }
  }

  /** The body is `None` unless some supplied parameter is declared `body`, and is otherwise the value of the last such parameter. */
  lemma {:induction false} BodyIsLastSupplied(params: seq<Json>, args: map<string, Json>)
    requires PartAll(params, args).Ok?
    ensures var p := PartAll(params, args).value;
      p.body == JNull || exists j, k :: 0 <= j < |params| && Declares(params[j], k, "body") && k in args && p.body == args[k]
    decreases |params|
  {
    if params != [] {
      BodyIsLastSupplied(params[..|params| - 1], args);
      QueryOnlyDeclared(params[..|params| - 1], args);
      var p := PartAll(params, args).value;
      var before := PartAll(params[..|params| - 1], args).value;
      if p.body != before.body {
        var n := |params| - 1;
        var k := params[n].fields["name"].s;
        assert Declares(params[n], k, "body") && k in args && p.body == args[k];
      } else if before.body != JNull {
        var j, k :| 0 <= j < |params| - 1 && Declares(params[..|params| - 1][j], k, "body") && k in args && before.body == args[k];
        assert params[j] == params[..|params| - 1][j];
      }
    }
  }

  /**
   * Arguments that no parameter declares as a `query` parameter are never put
   * in the query string, and those that are sent keep their values.
   */
  lemma PlanSendsOnlyDeclared(res: Resource, op: Json, kwargs: map<string, Json>, py: Builtins, params: seq<Json>)
    requires op.JObj? && "parameters" in op.fields && op.fields["parameters"] == JArr(params)
    requires PlanCall(res, op, kwargs, py).Ok?
    ensures var plan := PlanCall(res, op, kwargs, py).value;
      forall k :: k in plan.query ==>
        k in kwargs && plan.query[k] == kwargs[k] && exists j :: 0 <= j < |params| && Declares(params[j], k, "query")
  {
    var template := op.fields["path"];
    var sub := SubstAll(template, params, kwargs, py).value;
    SubstKeepsArgs(template, params, kwargs, py);
    QueryOnlyDeclared(params, sub.1);
  }

  /**
   * The request goes to the path the first loop produced, joined to the
   * resource's own `basePath` when it has one, the listing's otherwise.
   */
  lemma PlanUrlBase(res: Resource, op: Json, kwargs: map<string, Json>, py: Builtins)
    requires res.operationsSpec.JObj? && op.JObj?
    requires PlanCall(res, op, kwargs, py).Ok?
    ensures var base := if "basePath" in res.operationsSpec.fields then res.operationsSpec.fields["basePath"] else res.basePath;
      var params := Iterate(py, Get(op, "parameters", JArr([])).value);
      var sub := if params.Ok? && "path" in op.fields then SubstAll(op.fields["path"], params.value, kwargs, py) else Err(TypeError);
      base.JStr? && sub.Ok? && sub.value.0.JStr? &&
      PlanCall(res, op, kwargs, py).value.url == JoinUrl(base.s, sub.value.0.s)
  {
    var params := Iterate(py, Get(op, "parameters", JArr([])).value).value;
    var sub := SubstAll(op.fields["path"], params, kwargs, py).value;
    var base := Get(res.operationsSpec, "basePath", res.basePath).value;
    assert FullUrl(base, sub.0).Ok?;
    assert PlanCall(res, op, kwargs, py).value.url == JoinUrl(base.s, sub.0.s);
  }

  /** A supplied argument that some parameter declares as a `path` parameter is consumed by the first loop. */
  lemma {:induction false} SubstReplaces(template: Json, params: seq<Json>, kwargs: map<string, Json>, py: Builtins, j: int, k: string)
    requires SubstAll(template, params, kwargs, py).Ok?
    requires 0 <= j < |params| && Declares(params[j], k, "path") && k in kwargs
    ensures k !in SubstAll(template, params, kwargs, py).value.1
    decreases |params|
  {
    var n := |params| - 1;
    var front := params[..n];
    var acc := SubstAll(template, front, kwargs, py).value;
    if j < n {
      assert front[j] == params[j];
      SubstReplaces(template, front, kwargs, py, j, k);
    }
    assert SubstAll(template, params, kwargs, py) == SubstStep(acc.0, acc.1, params[n], py);
  }

  /**
   * With one declared `path` parameter that was supplied, the path is the
   * template with every `{name}` replaced by the argument's `str()`, and the
   * argument is consumed.
   */
  lemma SubstSingle(template: string, param: Json, k: string, kwargs: map<string, Json>, py: Builtins)
    requires Declares(param, k, "path") && k in kwargs
    ensures SubstAll(JStr(template), [param], kwargs, py)
      == Ok((JStr(Text.ReplaceAll(template, Placeholder(k), Str(py, kwargs[k]))), kwargs - {k}))
  {
    assert [param][..0] == [];
  }

  /** End to end: the URL of a call with one supplied `path` parameter is the base joined to the filled-in template. */
  lemma PlanFillsPath(res: Resource, op: Json, template: string, param: Json, k: string, kwargs: map<string, Json>, py: Builtins)
    requires res.operationsSpec.JObj? && op.JObj?
    requires "path" in op.fields && op.fields["path"] == JStr(template)
    requires "parameters" in op.fields && op.fields["parameters"] == JArr([param])
    requires Declares(param, k, "path") && k in kwargs
    requires PlanCall(res, op, kwargs, py).Ok?
    ensures var base := if "basePath" in res.operationsSpec.fields then res.operationsSpec.fields["basePath"] else res.basePath;
      base.JStr? &&
      PlanCall(res, op, kwargs, py).value.url == JoinUrl(base.s, Text.ReplaceAll(template, Placeholder(k), Str(py, kwargs[k])))
  {
    PlanUrlBase(res, op, kwargs, py);
    SubstSingle(template, param, k, kwargs, py);
  }

  // ----- The client -----

  /** What reading an attribute of the client gives: a filed resource, or a declaration found by the loader. */
  datatype ClientAttr = ResourceAttr(resource: Resource) | DeclarationAttr(model: SwaggerModel.Model<Client>)

  class Client {
    /** The URL the resource listing was loaded from. */
    const discoveryUrl: string
    const httpClient: Option<HttpClient.SynchronousHttpClient>
    /** The loaded resource listing (`api_docs`), also what the loader searches. */
    const apiDocs: Json
    /** Filed resources by name (`resources`). */
    var resources: map<Json, Resource>

    /** The fields `__init__` sets before filing the declarations. */
    constructor (url: string, httpClient: Option<HttpClient.SynchronousHttpClient>, apiDocs: Json)
      ensures discoveryUrl == url && this.httpClient == httpClient && this.apiDocs == apiDocs
      ensures resources == map[]
    {
      discoveryUrl := url;
      this.httpClient := httpClient;
      this.apiDocs := apiDocs;
      resources := map[];
    }

    /** `_process_apis`: files every declaration of the listing under its resource name. */
    method ProcessApis(fetch: Fetch, py: Builtins) returns (r: Result<(), Exc>)
      requires resources == map[]
      modifies this
      ensures r.Ok? <==> Processed(apiDocs, discoveryUrl, fetch, py).Ok?
      ensures r.Ok? ==> resources == Processed(apiDocs, discoveryUrl, fetch, py).value
      ensures r.Err? ==> r.error == Processed(apiDocs, discoveryUrl, fetch, py).error
    {
      var hasApis := Contains(apiDocs, "apis");
      if hasApis.Err? {
        return Err(hasApis.error);
      }
      if !hasApis.value {
        return Ok(());
      }
      var apis := Index(apiDocs, "apis");
      if apis.Err? {
        return Err(apis.error);
      }
      var items := Iterate(py, apis.value);
      if items.Err? {
        return Err(items.error);
      }
      r := FileAll(apiDocs.fields, items.value, fetch, py);
    }

    /** The loop of `_process_apis`: each declaration with a truthy name is filed under it, a later one replacing an earlier. */
    method FileAll(docs: map<string, Json>, decls: seq<Json>, fetch: Fetch, py: Builtins) returns (r: Result<(), Exc>)
      requires resources == map[]
      modifies this
      ensures r.Ok? <==> Build(docs, discoveryUrl, decls, fetch, py).Ok?
      ensures r.Ok? ==> resources == Build(docs, discoveryUrl, decls, fetch, py).value
      ensures r.Err? ==> r.error == Build(docs, discoveryUrl, decls, fetch, py).error
    {
      var i := 0;
      while i < |decls|
        invariant 0 <= i <= |decls|
        invariant Build(docs, discoveryUrl, decls[..i], fetch, py) == Ok(resources)
      {
        assert decls[..i + 1][..i] == decls[..i];
        var name := ResourceName(decls[i]);
        if name.Err? {
          BuildErrPersists(docs, discoveryUrl, decls, i + 1, fetch, py);
          return Err(name.error);
        }
        if Truthy(name.value) {
          if !Hashable(name.value) {
            BuildErrPersists(docs, discoveryUrl, decls, i + 1, fetch, py);
            return Err(TypeError);
          }
          resources := resources[name.value := MakeResource(docs, discoveryUrl, decls[i].fields, fetch, py)];
        }
        i := i + 1;
      }
      assert decls[..i] == decls;
      return Ok(());
    }

    /**
     * `Client(url, http_client)`: loads the listing (any failure becomes
     * `RuntimeError`, before any resource exists) and then files its declarations.
     */
    static method Load(url: string, httpClient: Option<HttpClient.SynchronousHttpClient>, fetch: Fetch, py: Builtins)
      returns (r: Result<Client, Exc>)
      ensures fetch(url).None? ==> r == Err(RuntimeError("Could not load Swagger API specification from " + url))
      ensures fetch(url).Some? ==> (r.Ok? <==> Processed(fetch(url).value, url, fetch, py).Ok?)
      ensures fetch(url).Some? && r.Err? ==> r.error == Processed(fetch(url).value, url, fetch, py).error
      ensures r.Ok? ==> fetch(url).Some? && fresh(r.value)
      ensures r.Ok? ==> r.value.discoveryUrl == url && r.value.httpClient == httpClient && r.value.apiDocs == fetch(url).value
      ensures r.Ok? ==> r.value.resources == Processed(fetch(url).value, url, fetch, py).value
    {
      var docs := fetch(url);
      if docs.None? {
        return Err(RuntimeError("Could not load Swagger API specification from " + url));
      }
      var c := new Client(url, httpClient, docs.value);
      var filed := c.ProcessApis(fetch, py);
      if filed.Err? {
        return Err(filed.error);
      }
      return Ok(c);
    }

    /**
     * `__getattr__(name)`: a filed resource first; otherwise the loader's
     * declaration, its `AttributeError` reworded.
     */
    function GetAttr(name: string, py: Builtins): (r: Result<ClientAttr, Exc>)
      reads this
      ensures JStr(name) in resources ==> r == Ok(ResourceAttr(resources[JStr(name)]))
      ensures JStr(name) !in resources ==> r.Ok? == SwaggerModel.GetResource(this, apiDocs, name, py).Ok?
      ensures var found := SwaggerModel.GetResource(this, apiDocs, name, py);
        JStr(name) !in resources && found.Ok? ==> r == Ok(DeclarationAttr(found.value))
      ensures var found := SwaggerModel.GetResource(this, apiDocs, name, py);
        JStr(name) !in resources && found.Err? && !found.error.AttributeError? ==> r == Err(found.error)
      ensures r.Ok? && r.value.DeclarationAttr? ==> r.value.model.apiClient == this
      ensures r.Err? && r.error.AttributeError? ==> r.error.message == "Swagger client has no resource or attribute '" + name + "'"
    {
      if JStr(name) in resources then Ok(ResourceAttr(resources[JStr(name)]))
      else
        match SwaggerModel.GetResource(this, apiDocs, name, py)
        case Ok(m) => Ok(DeclarationAttr(m))
        case Err(e) =>
          if e.AttributeError? then Err(AttributeError("Swagger client has no resource or attribute '" + name + "'"))
          else Err(e)
    }
  }
}
