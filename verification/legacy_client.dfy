/**
 * `mcpx_client/client.py`'s `tools` and `call`: the index maps a tool name to the pair of
 * its servlet and the tool, and `call` returns the plain content list.
 */
module LegacyCalls {
  import opened Wrappers
  import opened Errors
  import opened Json
  import opened Servlets
  import opened Host
  import opened Plugins
  import opened Directory
  import Dict
  import Cache
  import Calls

  /** `(tool.name, (install, tool))` for every provided tool, in index-filling order. */
  function Paired(ps: seq<(Servlet, Tool)>): (r: seq<(string, (Servlet, Tool))>)
    ensures |r| == |ps|
    ensures forall k :: 0 <= k < |ps| ==> r[k] == (ps[k].1.name, ps[k])
  {
    seq(|ps|, k requires 0 <= k < |ps| => (ps[k].1.name, ps[k]))
  }

  /** The dict the `tools` property builds: `tools[tool.name] = (install, tool)`. */
  function ToolIndex(items: Dict.Dict<string, Servlet>): Dict.Dict<string, (Servlet, Tool)> {
    Dict.PutAll(Dict.Empty(), Paired(Provided(Dict.Values(items))))
  }

  function Tools(c: Client, env: Env): (r: (Client, Result<Dict.Dict<string, (Servlet, Tool)>, Error>))
    ensures r.0 == Installs(c, env).0
    ensures Installs(c, env).1.Failure? ==> r.1 == Failure(Installs(c, env).1.error)
    ensures Installs(c, env).1.Success? ==> r.1 == Success(ToolIndex(r.0.installs.items))
  {
    var (c', installs) := Installs(c, env);
    match installs
    case Failure(e) => (c', Failure(e))
    case Success(items) => (c', Success(ToolIndex(items)))
  }

  /** The last value of a key is unchanged by keeping only the second half of each value. */
  lemma {:induction false} LastValueTools(ps: seq<(Servlet, Tool)>, n: string)
    ensures Dict.LastValue(Calls.Keyed(ps), n) ==
      if Dict.LastValue(Paired(ps), n).Some? then Some(Dict.LastValue(Paired(ps), n).value.1) else None
    decreases |ps|
  {
    if |ps| > 0 {
      var k := |ps| - 1;
      assert Calls.Keyed(ps)[..k] == Calls.Keyed(ps[..k]);
      assert Paired(ps)[..k] == Paired(ps[..k]);
      LastValueTools(ps[..k], n);
    }
  }

  /** Both client modules index the same tools: the same names, and under each name the tool
      of the same servlet. */
  lemma SameIndexAsMcpx(items: Dict.Dict<string, Servlet>, n: string)
    ensures n in Dict.Keys(ToolIndex(items)) <==> n in Dict.Keys(Calls.ToolIndex(items))
    ensures n in Dict.Keys(ToolIndex(items)) ==>
      Dict.Get(ToolIndex(items), n).value.1 == Dict.Get(Calls.ToolIndex(items), n).value
  {
    var ps := Provided(Dict.Values(items));
    Dict.PutAllGet(Dict.Empty(), Paired(ps), n);
    Dict.PutAllGet(Dict.Empty(), Calls.Keyed(ps), n);
    LastValueTools(ps, n);
  }

  /** Every indexed pair is a cached servlet, stored under its name, and one of its tools,
      stored there under the indexed name. */
  lemma ToolIndexOwner(c: Client, n: string)
    requires Valid(c)
    requires Dict.Get(ToolIndex(c.installs.items), n).Some?
    ensures var (s, t) := Dict.Get(ToolIndex(c.installs.items), n).value;
      && t.name == n
      && Dict.Get(c.installs.items, s.name) == Some(s)
      && Dict.Get(s.tools, n) == Some(t)
  {
    var items := c.installs.items;
    var ss := Dict.Values(items);
    var ps := Paired(Provided(ss));
    var pair := Dict.Get(ToolIndex(items), n).value;
    assert Dict.LastValue(ps, n) == Some(pair) by {
      Dict.PutAllGet(Dict.Empty(), ps, n);
    }
    Dict.LastValueFrom(ps, n);
    var k :| 0 <= k < |ps| && ps[k] == (n, pair) && (forall j :: k < j < |ps| ==> ps[j].0 != n);
    ProvidedFrom(ss);
    assert Source(ss, Provided(ss)[k]);
    var j, m :| 0 <= j < |ss| && 0 <= m < |ss[j].tools.entries| && Provided(ss)[k] == (ss[j], ss[j].tools.entries[m].1);
    var s := items.entries[j].1;
    assert pair == (s, s.tools.entries[m].1);
    assert s.name == items.entries[j].0 && Linked(c.variant, s);
    assert Dict.Get(items, s.name) == Some(s) by {
      Dict.LookupAt(items.entries, j);
    }
    assert Dict.Get(s.tools, n) == Some(pair.1) by {
      Dict.LookupAt(s.tools.entries, m);
    }
  }

  /** `call(name)`: `install, t = self.tools[name]`, which raises KeyError for an unknown tool
      before any plugin is touched; then the servlet is instantiated and called with the
      name as given. */
  function Call(c: Client, env: Env, name: string, input: Json, wasi: bool, functions: nat): (r: (Client, Result<seq<Content>, Error>))
    ensures r.0.variant == c.variant && r.0.session == c.session && r.0.base == c.base
    ensures Tools(c, env).1.Failure? ==> r == (Tools(c, env).0, Failure(Tools(c, env).1.error))
    ensures var (c1, tools) := Tools(c, env);
      tools.Success? && name !in Dict.Keys(tools.value) ==> r == (c1, Failure(KeyError(name)))
    ensures var (c1, tools) := Tools(c, env);
      tools.Success? && name in Dict.Keys(tools.value) ==>
        var inst := Plugin(c1, env, Dict.Get(tools.value, name).value.0, wasi, functions);
        && (inst.plugin.Failure? ==> r.1 == Failure(inst.plugin.error))
        && (inst.plugin.Success? ==> r.1 == CallPlugin(env, inst.plugin.value, Some(name), input))
    ensures Valid(c) ==> Valid(r.0)
  {
    var (c1, tools) := Tools(c, env);
    match tools
    case Failure(e) => (c1, Failure(e))
    case Success(index) =>
      match Dict.Get(index, name)
      case None => (c1, Failure(KeyError(name)))
      case Some(pair) =>
        var inst := Plugin(c1, env, pair.0, wasi, functions);
        var c' := WriteBack(inst.client, pair.0, inst.install);
        match inst.plugin
        case Failure(e) => (c', Failure(e))
        case Success(p) => (c', CallPlugin(env, p, Some(name), input))
  }

  /** End to end: calling a listed tool sends the sandbox of the servlet providing it the
      tool's name and input, and answers the blocks it writes back, in order. */
  lemma CallAnswersBlocks(c: Client, env: Env, name: string, input: Json, wasi: bool, bs: seq<Block>)
    requires Valid(c)
    requires Tools(c, env).1.Success? && name in Dict.Keys(Tools(c, env).1.value)
    requires var c1 := Tools(c, env).0;
      var s := Dict.Get(ToolIndex(c1.installs.items), name).value.0;
      Plugin(c1, env, s, wasi, 0).plugin.Success?
    requires var c1 := Tools(c, env).0;
      var s := Dict.Get(ToolIndex(c1.installs.items), name).value.0;
      var p := Plugin(c1, env, s, wasi, 0).plugin.value;
      env.invoke(p.plugin.manifest, p.plugin.wasi, Request(name, input)) == Success(ReplyJson(bs))
    requires Decodable(env, bs)
    ensures Call(c, env, name, input, wasi, 0).1 == Success(Expected(env, bs))
  {
    var c1 := Tools(c, env).0;
    var s := Dict.Get(ToolIndex(c1.installs.items), name).value.0;
    var p := Plugin(c1, env, s, wasi, 0).plugin.value;
    CallPluginReply(env, p, Some(name), input, bs);
  }
}
