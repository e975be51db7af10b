/**
 * The client's data model (tools, servlets, sandbox manifests, call output) and
 * `list_installs`, which builds servlets from the registry's installation list.
 */
module Servlets {
  import opened Wrappers
  import opened Errors
  import opened Json
  import Dict

  type Byte = b: int | 0 <= b < 256
  type Bytes = seq<Byte>

  /** Which of the two client modules a behaviour belongs to: `mcpx` or the older `mcpx_client`. */
  datatype Variant = Mcpx | McpxClient

  /** A tool definition. `servlet` is the back-reference to the owning servlet, held by name;
      only the `mcpx` module keeps one. */
  datatype Tool = Tool(name: string, description: Json, inputSchema: Json, servlet: Option<string>)

  /** An installed servlet; `content` caches the WASM module once fetched. */
  datatype Servlet = Servlet(
    name: string,
    slug: Json,
    bindingId: Json,
    contentAddr: string,
    settings: Json,
    tools: Dict.Dict<string, Tool>,
    content: Option<Bytes>)

  /** The extism manifest a servlet is instantiated with. */
  datatype Manifest = Manifest(wasm: Bytes, allowedPaths: Json, allowedHosts: Json, config: Json)

  /** One block of a tool call's output: `type`, `mime_type` (default "text/plain") and `_data`. */
  datatype Content = Content(kind: string, mimeType: Json, stored: Option<Bytes>) {
    /** `data`: the stored bytes, `b""` when nothing is stored. */
    function Data(): (b: Bytes)
      ensures stored.None? ==> b == []
      ensures stored.Some? ==> b == stored.value
    {
      stored.GetOr([])
    }
  }

  const TextPlain := JStr("text/plain")

  /** The back-reference a variant gives the tools of servlet `name`. */
  function BackRef(v: Variant, name: string): Option<string> {
    if v == Mcpx then Some(name) else None
  }

  /** The shape every servlet `list_installs` yields has: no module bytes yet, each tool
      stored under its own name, with the variant's back-reference. */
  ghost predicate Fresh(v: Variant, s: Servlet) {
    s.content.None? && Linked(v, s)
  }

  /** Each tool stored under its own name, with the variant's back-reference to `s`. */
  ghost predicate Linked(v: Variant, s: Servlet) {
    && Dict.Wf(s.tools)
    && forall i :: 0 <= i < |s.tools.entries| ==>
         s.tools.entries[i].1.name == s.tools.entries[i].0 && s.tools.entries[i].1.servlet == BackRef(v, s.name)
  }

  /** `Tool(name=t["name"], description=t["description"], input_schema=t["inputSchema"], ...)`. */
  function ParseTool(back: Option<string>, j: Json): (r: Result<Tool, Error>)
    ensures r.Success? ==> r.value.servlet == back
  {
    var name :- Index(j, "name");
    var description :- Index(j, "description");
    var schema :- Index(j, "inputSchema");
    var key :- AsString(name, "tool name");
    Success(Tool(key, description, schema, back))
  }

  /** The tools dict built by `for tool in tools: d[tool["name"]] = Tool(...)`. */
  function ParseTools(back: Option<string>, items: seq<Json>): (r: Result<Dict.Dict<string, Tool>, Error>)
    ensures r.Success? ==> Dict.Wf(r.value)
    ensures r.Success? ==> forall i :: 0 <= i < |r.value.entries| ==>
              r.value.entries[i].1.name == r.value.entries[i].0 && r.value.entries[i].1.servlet == back
    decreases |items|
  {
    if |items| == 0 then Success(Dict.Empty())
    else
      var d :- ParseTools(back, items[..|items| - 1]);
      var t :- ParseTool(back, items[|items| - 1]);
      Success(Dict.Put(d, t.name, t))
  }

  /** The tool list a servlet's schema holds: its `"tools"` entry when it has one, otherwise
      the schema itself as the only tool. */
  function ToolList(schema: Json): (r: Result<Json, Error>)
    ensures Contains(schema, "tools").Failure? ==> r == Failure(Contains(schema, "tools").error)
    ensures Contains(schema, "tools") == Success(true) ==> r == Index(schema, "tools")
    ensures Contains(schema, "tools") == Success(false) ==> r == Success(JArr([schema]))
  {
    var listed :- Contains(schema, "tools");
    if listed then Index(schema, "tools") else Success(JArr([schema]))
  }

  /** One element of `data["installs"]` turned into a servlet, raising as the source does.
      The two variants read the same fields in different orders. */
  function ParseInstall(v: Variant, j: Json): (r: Result<Servlet, Error>)
    ensures r.Success? ==> Fresh(v, r.value)
  {
    var binding :- Index(j, "binding");
    var servlet :- Index(j, "servlet");
    var meta :- Index(servlet, "meta");
    var schema :- Index(meta, "schema");
    var toolsJson :- ToolList(schema);
    if v == Mcpx then
      var id :- Index(binding, "id");
      var addr :- Index(binding, "contentAddress");
      var name :- Index(j, "name");
      var slug :- Index(servlet, "slug");
      var settings :- Index(j, "settings");
      var addrText :- AsString(addr, "contentAddress");
      var nameText :- AsString(name, "install name");
      var items :- Iter(toolsJson);
      var tools :- ParseTools(Some(nameText), items);
      Success(Servlet(nameText, slug, id, addrText, settings, tools, None))
    else
      var items :- Iter(toolsJson);
      var tools :- ParseTools(None, items);
      var id :- Index(binding, "id");
      var addr :- Index(binding, "contentAddress");
      var name :- Index(j, "name");
      var slug :- Index(servlet, "slug");
      var settings :- Index(j, "settings");
      var addrText :- AsString(addr, "contentAddress");
      var nameText :- AsString(name, "install name");
      Success(Servlet(nameText, slug, id, addrText, settings, tools, None))
  }

  /** What the `list_installs` generator delivers before it stops: the servlets yielded, then
      the exception that ended it, if any. */
  datatype Fetched = Fetched(servlets: seq<Servlet>, error: Option<Error>)

  function ParseEach(v: Variant, items: seq<Json>): (r: Fetched)
    ensures |r.servlets| <= |items|
    ensures r.error.None? ==> |r.servlets| == |items|
    ensures forall i :: 0 <= i < |r.servlets| ==> ParseInstall(v, items[i]) == Success(r.servlets[i])
    ensures r.error.Some? ==> |r.servlets| < |items| && ParseInstall(v, items[|r.servlets|]) == Failure(r.error.value)
    decreases |items|
  {
    if |items| == 0 then Fetched([], None)
    else
      match ParseInstall(v, items[0])
      case Failure(e) => Fetched([], Some(e))
      case Success(s) =>
        var rest := ParseEach(v, items[1..]);
        Fetched([s] + rest.servlets, rest.error)
  }

  /** `list_installs`, given the decoded response of the installation-list request. */
  function ListInstalls(v: Variant, payload: Result<Json, Error>): (r: Fetched)
    ensures forall i :: 0 <= i < |r.servlets| ==> Fresh(v, r.servlets[i])
  {
    match payload
    case Failure(e) => Fetched([], Some(e))
    case Success(data) =>
      match Index(data, "installs")
      case Failure(e) => Fetched([], Some(e))
      case Success(installs) =>
        match Iter(installs)
        case Failure(e) => Fetched([], Some(e))
        case Success(items) => ParseEach(v, items)
  }

  // The registry's side: the installation list a set of servlets is published as.

  function ToolJson(t: Tool): Json {
    Obj([("name", JStr(t.name)), ("description", t.description), ("inputSchema", t.inputSchema)])
  }

  function ToolsJson(es: seq<(string, Tool)>): (r: seq<Json>)
    ensures |r| == |es|
    ensures forall i :: 0 <= i < |es| ==> r[i] == ToolJson(es[i].1)
  {
    seq(|es|, i requires 0 <= i < |es| => ToolJson(es[i].1))
  }

  /** A servlet as the registry lists it, with the given schema object. */
  function InstallWith(s: Servlet, schema: Json): Json {
    Obj([
      ("name", JStr(s.name)),
      ("binding", Obj([("id", s.bindingId), ("contentAddress", JStr(s.contentAddr))])),
      ("servlet", Obj([("slug", s.slug), ("meta", Obj([("schema", schema)]))])),
      ("settings", s.settings)
    ])
  }

  /** A servlet as the registry lists it, with its tools under `"tools"`. */
  function InstallJson(s: Servlet): Json {
    InstallWith(s, SchemaJson(s))
  }

  function InstallsJson(ss: seq<Servlet>): (r: seq<Json>)
    ensures |r| == |ss|
    ensures forall i :: 0 <= i < |ss| ==> r[i] == InstallJson(ss[i])
  {
    seq(|ss|, i requires 0 <= i < |ss| => InstallJson(ss[i]))
  }

  function PayloadJson(ss: seq<Servlet>): Json {
    Obj([("installs", JArr(InstallsJson(ss)))])
  }

  lemma ParseToolJson(t: Tool)
    ensures ParseTool(t.servlet, ToolJson(t)) == Success(t)
  {
    var fs := [("name", JStr(t.name)), ("description", t.description), ("inputSchema", t.inputSchema)];
    IndexObj(fs, 0);
    IndexObj(fs, 1);
    IndexObj(fs, 2);
  }

  lemma {:induction false} ParseToolsJson(back: Option<string>, es: seq<(string, Tool)>)
    requires Dict.Distinct(es)
    requires forall i :: 0 <= i < |es| ==> es[i].1.name == es[i].0 && es[i].1.servlet == back
    ensures ParseTools(back, ToolsJson(es)) == Success(Dict.Dict(es))
    decreases |es|
  {
    if |es| > 0 {
      var init, last := es[..|es| - 1], es[|es| - 1];
      var items := ToolsJson(es);
      Dict.PutLast(es);
      assert ParseTools(back, items[..|items| - 1]) == Success(Dict.Dict(init)) by {
        assert items[..|items| - 1] == ToolsJson(init);
        ParseToolsJson(back, init);
      }
      assert ParseTool(back, items[|items| - 1]) == Success(last.1) by {
        ParseToolJson(last.1);
      }
    }
  }

  /** The schema object of a listed servlet, as `InstallJson` publishes it. */
  function SchemaJson(s: Servlet): Json {
    Obj([("tools", JArr(ToolsJson(s.tools.entries)))])
  }

  /** Parsing a listed servlet gives back that servlet, whatever form of schema lists its
      tools. */
  lemma ParseInstallWith(v: Variant, s: Servlet, schema: Json, items: seq<Json>)
    requires Fresh(v, s)
    requires ToolList(schema) == Success(JArr(items))
    requires ParseTools(BackRef(v, s.name), items) == Success(s.tools)
    ensures ParseInstall(v, InstallWith(s, schema)) == Success(s)
  {
    InstallFields(s, schema);
    NestedFields(s, schema);
  }

  /** The top-level fields of a listed servlet. */
  lemma InstallFields(s: Servlet, schema: Json)
    ensures var j := InstallWith(s, schema);
      && Index(j, "name") == Success(JStr(s.name))
      && Index(j, "binding") == Success(Obj([("id", s.bindingId), ("contentAddress", JStr(s.contentAddr))]))
      && Index(j, "servlet") == Success(Obj([("slug", s.slug), ("meta", Obj([("schema", schema)]))]))
      && Index(j, "settings") == Success(s.settings)
  {
    var servletFs := [("slug", s.slug), ("meta", Obj([("schema", schema)]))];
    var bindingFs := [("id", s.bindingId), ("contentAddress", JStr(s.contentAddr))];
    var fs := [("name", JStr(s.name)), ("binding", Obj(bindingFs)), ("servlet", Obj(servletFs)), ("settings", s.settings)];
    assert InstallWith(s, schema) == Obj(fs);
    IndexObj(fs, 0);
    IndexObj(fs, 1);
    IndexObj(fs, 2);
    IndexObj(fs, 3);
  }

  /** The fields inside a listed servlet's `binding`, `servlet` and `meta` objects. */
  lemma NestedFields(s: Servlet, schema: Json)
    ensures var binding := Obj([("id", s.bindingId), ("contentAddress", JStr(s.contentAddr))]);
      && Index(binding, "id") == Success(s.bindingId)
      && Index(binding, "contentAddress") == Success(JStr(s.contentAddr))
    ensures var servlet := Obj([("slug", s.slug), ("meta", Obj([("schema", schema)]))]);
      && Index(servlet, "slug") == Success(s.slug)
      && Index(servlet, "meta") == Success(Obj([("schema", schema)]))
      && Index(Obj([("schema", schema)]), "schema") == Success(schema)
  {
    var bindingFs := [("id", s.bindingId), ("contentAddress", JStr(s.contentAddr))];
    var servletFs := [("slug", s.slug), ("meta", Obj([("schema", schema)]))];
    IndexObj(bindingFs, 0);
    IndexObj(bindingFs, 1);
    IndexObj(servletFs, 0);
    IndexObj(servletFs, 1);
    IndexObj([("schema", schema)], 0);
  }

  /** Parsing the registry's listing of a servlet gives back that servlet. */
  lemma ParseInstallJson(v: Variant, s: Servlet)
    requires Fresh(v, s)
    ensures ParseInstall(v, InstallJson(s)) == Success(s)
  {
    var toolsJson := JArr(ToolsJson(s.tools.entries));
    var schemaFs := [("tools", toolsJson)];
    assert ToolList(Obj(schemaFs)) == Success(toolsJson) by {
      IndexObj(schemaFs, 0);
      assert schemaFs[0].0 == "tools";
      assert "tools" in Dict.Keys(Dict.Dict(schemaFs));
    }
    ParseToolsJson(BackRef(v, s.name), s.tools.entries);
    ParseInstallWith(v, s, Obj(schemaFs), ToolsJson(s.tools.entries));
  }

  /** A schema without a `"tools"` key describes a single tool: a servlet with one tool, listed
      with that tool's description as its whole schema, parses back to itself. */
  lemma SingleToolSchema(v: Variant, s: Servlet)
    requires Fresh(v, s) && |s.tools.entries| == 1
    ensures ParseInstall(v, InstallWith(s, ToolJson(s.tools.entries[0].1))) == Success(s)
  {
    var t := s.tools.entries[0].1;
    var schema := ToolJson(t);
    assert ToolList(schema) == Success(JArr([schema])) by {
      assert "tools" !in Dict.Keys(schema.fields) by {
        forall i | 0 <= i < |schema.fields.entries|
          ensures schema.fields.entries[i].0 != "tools"
        {
        }
      }
    }
    assert [schema] == ToolsJson(s.tools.entries);
    ParseToolsJson(BackRef(v, s.name), s.tools.entries);
    ParseInstallWith(v, s, schema, [schema]);
  }

  lemma {:induction false} ParseEachJson(v: Variant, ss: seq<Servlet>)
    requires forall i :: 0 <= i < |ss| ==> Fresh(v, ss[i])
    ensures ParseEach(v, InstallsJson(ss)) == Fetched(ss, None)
    decreases |ss|
  {
    var items := InstallsJson(ss);
    if |ss| > 0 {
      ParseInstallJson(v, ss[0]);
      ParseEachJson(v, ss[1..]);
      assert items[1..] == InstallsJson(ss[1..]);
      assert [ss[0]] + ss[1..] == ss;
    }
  }

  /** Round trip: `list_installs` over the registry's listing of servlets yields exactly those
      servlets, in order, without error. */
  lemma ListInstallsRoundTrip(v: Variant, ss: seq<Servlet>)
    requires forall i :: 0 <= i < |ss| ==> Fresh(v, ss[i])
    ensures ListInstalls(v, Success(PayloadJson(ss))) == Fetched(ss, None)
  {
    ParseEachJson(v, ss);
    var p := PayloadJson(ss);
    assert Dict.Keys(p.fields) == {"installs"} by {
      assert p.fields.entries[0].0 == "installs";
    }
  }
}
