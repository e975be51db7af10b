/**
 * `mcpx/client.py`'s `tools` and `call`: the tool index is rebuilt from the cached servlets on
 * every read, and a call finds its servlet through the tool's back-reference.
 */
module Calls {
  import opened Wrappers
  import opened Errors
  import opened Json
  import opened Servlets
  import opened Host
  import opened Plugins
  import opened Directory
  import Dict
  import Cache

  datatype CallResult = CallResult(content: seq<Content>)

  /** `(tool.name, tool)` for every provided tool, in index-filling order. */
  function Keyed(ps: seq<(Servlet, Tool)>): (r: seq<(string, Tool)>)
    ensures |r| == |ps|
    ensures forall k :: 0 <= k < |ps| ==> r[k] == (ps[k].1.name, ps[k].1)
  {
    seq(|ps|, k requires 0 <= k < |ps| => (ps[k].1.name, ps[k].1))
  }

  /** The dict the `tools` property builds: `tools[tool.name] = tool` over all servlets. */
  function ToolIndex(items: Dict.Dict<string, Servlet>): Dict.Dict<string, Tool> {
    Dict.PutAll(Dict.Empty(), Keyed(Provided(Dict.Values(items))))
  }

  /** The `tools` property: `installs` (with its refresh), then the index. */
  function Tools(c: Client, env: Env): (r: (Client, Result<Dict.Dict<string, Tool>, Error>))
    ensures r.0 == Installs(c, env).0
    ensures Installs(c, env).1.Failure? ==> r.1 == Failure(Installs(c, env).1.error)
    ensures Installs(c, env).1.Success? ==> r.1 == Success(ToolIndex(r.0.installs.items))
  {
    var (c', installs) := Installs(c, env);
    match installs
    case Failure(e) => (c', Failure(e))
    case Success(items) => (c', Success(ToolIndex(items)))
  }

  /** A name is in the index exactly when some cached servlet has a tool of that name. */
  lemma ToolIndexKeys(items: Dict.Dict<string, Servlet>, n: string)
    ensures n in Dict.Keys(ToolIndex(items)) <==> Offers(items, n)
  {
    if n in Dict.Keys(ToolIndex(items)) {
      IndexedIsOffered(items, n);
    }
    if Offers(items, n) {
      OfferedIsIndexed(items, n);
    }
  }

  lemma IndexedIsOffered(items: Dict.Dict<string, Servlet>, n: string)
    requires n in Dict.Keys(ToolIndex(items))
    ensures Offers(items, n)
  {
    var ss := Dict.Values(items);
    var ps := Keyed(Provided(ss));
    Dict.PutAllKeys(Dict.Empty(), ps);
    ProvidedFrom(ss);
    var k :| 0 <= k < |ps| && ps[k].0 == n;
    assert Source(ss, Provided(ss)[k]);
    var j, m :| 0 <= j < |ss| && 0 <= m < |ss[j].tools.entries| && Provided(ss)[k] == (ss[j], ss[j].tools.entries[m].1);
    assert items.entries[j].1.tools.entries[m].1.name == n;
  }

  lemma OfferedIsIndexed(items: Dict.Dict<string, Servlet>, n: string)
    requires Offers(items, n)
    ensures n in Dict.Keys(ToolIndex(items))
  {
    var ss := Dict.Values(items);
    var ps := Keyed(Provided(ss));
    Dict.PutAllKeys(Dict.Empty(), ps);
    var i, m :| 0 <= i < |items.entries| && 0 <= m < |items.entries[i].1.tools.entries|
      && items.entries[i].1.tools.entries[m].1.name == n;
    ProvidedCovers(ss, i, m);
    var k :| 0 <= k < |Provided(ss)| && Provided(ss)[k] == (ss[i], ss[i].tools.entries[m].1);
    assert ps[k].0 == n;
  }

  /** An indexed tool is one of the tools of one of the servlets. */
  lemma ToolIndexFrom(items: Dict.Dict<string, Servlet>, n: string)
    requires Dict.Get(ToolIndex(items), n).Some?
    ensures var t := Dict.Get(ToolIndex(items), n).value;
      && t.name == n
      && (exists j, m :: 0 <= j < |items.entries| && 0 <= m < |items.entries[j].1.tools.entries| && t == items.entries[j].1.tools.entries[m].1)
  {
    var ss := Dict.Values(items);
    var ps := Keyed(Provided(ss));
    var t := Dict.Get(ToolIndex(items), n).value;
    assert Dict.LastValue(ps, n) == Some(t) by {
      Dict.PutAllGet(Dict.Empty(), ps, n);
    }
    Dict.LastValueFrom(ps, n);
    var k :| 0 <= k < |ps| && ps[k] == (n, t) && (forall j :: k < j < |ps| ==> ps[j].0 != n);
    ProvidedFrom(ss);
    assert Source(ss, Provided(ss)[k]);
    var j, m :| 0 <= j < |ss| && 0 <= m < |ss[j].tools.entries| && Provided(ss)[k] == (ss[j], ss[j].tools.entries[m].1);
    assert t == items.entries[j].1.tools.entries[m].1;
  }

  /** Every indexed tool is a tool of a cached servlet, stored there under the same name, and
      its back-reference names that servlet's cache entry. */
  lemma ToolIndexOwner(c: Client, n: string)
    requires Valid(c) && c.variant == Mcpx
    requires Dict.Get(ToolIndex(c.installs.items), n).Some?
    ensures var t := Dict.Get(ToolIndex(c.installs.items), n).value;
      && t.name == n
      && t.servlet.Some?
      && Dict.Get(c.installs.items, t.servlet.value).Some?
      && Dict.Get(Dict.Get(c.installs.items, t.servlet.value).value.tools, n) == Some(t)
  {
    var items := c.installs.items;
    var t := Dict.Get(ToolIndex(items), n).value;
    ToolIndexFrom(items, n);
    var j, m :| 0 <= j < |items.entries| && 0 <= m < |items.entries[j].1.tools.entries|
      && t == items.entries[j].1.tools.entries[m].1;
    var s := items.entries[j].1;
    assert s.name == items.entries[j].0 && Linked(c.variant, s);
    assert t.servlet == Some(s.name) && s.tools.entries[m].0 == n;
    assert Dict.Get(items, s.name) == Some(s) by {
      Dict.LookupAt(items.entries, j);
    }
    assert Dict.Get(s.tools, n) == Some(t) by {
      Dict.LookupAt(s.tools.entries, m);
    }
  }

  /** When the same tool name is offered by several servlets, the last installed servlet that
      offers it wins: servlet `j` offers `n` and no servlet after it does. */
  lemma LastInstallWins(items: Dict.Dict<string, Servlet>, v: Variant, n: string, j: nat)
    requires j < |items.entries|
    requires forall k :: j <= k < |items.entries| ==> Linked(v, items.entries[k].1)
    requires n in Dict.Keys(items.entries[j].1.tools)
    requires forall k :: j < k < |items.entries| ==> n !in Dict.Keys(items.entries[k].1.tools)
    ensures Dict.Get(ToolIndex(items), n) == Dict.Get(items.entries[j].1.tools, n)
  {
    var ss := Dict.Values(items);
    var tools := ss[j].tools.entries;
    var front := Keyed(Provided(ss[..j]));
    var after := Keyed(Provided(ss[j + 1..]));
    SplitAt(items, v, j);
    LaterNotOffered(items, v, n, j);
    Dict.PutAllGet(Dict.Empty(), front + tools + after, n);
    Dict.LastValueConcat(front + tools, after, n);
    Dict.LastValueConcat(front, tools, n);
    Dict.PutAllGet(Dict.Empty(), tools, n);
    Dict.PutAllRebuilds(tools);
    Dict.LookupKeys(tools, n);
    assert Dict.LastValue(tools, n).Some?;
  }

  /** The index is filled from the servlets before `j`, then `j`'s own tools dict, then the
      servlets after `j`. */
  lemma SplitAt(items: Dict.Dict<string, Servlet>, v: Variant, j: nat)
    requires j < |items.entries| && Linked(v, items.entries[j].1)
    ensures var ss := Dict.Values(items);
      Keyed(Provided(ss)) == Keyed(Provided(ss[..j])) + ss[j].tools.entries + Keyed(Provided(ss[j + 1..]))
  {
    var ss := Dict.Values(items);
    var winner := ss[j];
    assert ss == ss[..j] + [winner] + ss[j + 1..];
    ProvidedConcat(ss[..j] + [winner], ss[j + 1..]);
    ProvidedConcat(ss[..j], [winner]);
    assert Provided([winner]) == Offered(winner) by {
      assert [winner][..0] == [];
    }
    KeyedConcat(Provided(ss[..j]) + Offered(winner), Provided(ss[j + 1..]));
    KeyedConcat(Provided(ss[..j]), Offered(winner));
    assert Keyed(Offered(winner)) == winner.tools.entries;
  }

  /** No tool after servlet `j` is called `n` when none of the later servlets offers `n`. */
  lemma LaterNotOffered(items: Dict.Dict<string, Servlet>, v: Variant, n: string, j: nat)
    requires j < |items.entries|
    requires forall k :: j < k < |items.entries| ==> Linked(v, items.entries[k].1)
    requires forall k :: j < k < |items.entries| ==> n !in Dict.Keys(items.entries[k].1.tools)
    ensures Dict.LastValue(Keyed(Provided(Dict.Values(items)[j + 1..])), n) == None
  {
    var later := Dict.Values(items)[j + 1..];
    var ps := Keyed(Provided(later));
    ProvidedFrom(later);
    forall k | 0 <= k < |ps|
      ensures ps[k].0 != n
    {
      assert Source(later, Provided(later)[k]);
      var i, m :| 0 <= i < |later| && 0 <= m < |later[i].tools.entries| && Provided(later)[k] == (later[i], later[i].tools.entries[m].1);
      var s := items.entries[j + 1 + i].1;
      assert later[i] == s;
      assert s.tools.entries[m].0 in Dict.Keys(s.tools);
    }
    Dict.LastValueAbsent(ps, n);
  }

  /** The servlet object a tool's back-reference points at, looked up in the install cache. */
  function Owner(c: Client, t: Tool): (r: Option<Servlet>)
    ensures r.Some? ==> t.servlet.Some? && Dict.Get(c.installs.items, t.servlet.value) == r
  {
    if t.servlet.Some? then Dict.Get(c.installs.items, t.servlet.value) else None
  }

  /** `call(tool)` once the tool object is in hand: instantiate its servlet, then call the tool
      by its name. */
  function CallTool(c: Client, env: Env, t: Tool, owner: Servlet, input: Json, wasi: bool, functions: nat): (r: (Client, Result<CallResult, Error>))
    ensures r.0.variant == c.variant && r.0.session == c.session && r.0.base == c.base
    ensures var inst := Plugin(c, env, owner, wasi, functions);
      && (inst.plugin.Failure? ==> r.1 == Failure(inst.plugin.error))
      && (inst.plugin.Success? ==> (r.1.Success? <==> CallPlugin(env, inst.plugin.value, Some(t.name), input).Success?))
      && (inst.plugin.Success? && r.1.Success? ==> r.1.value.content == CallPlugin(env, inst.plugin.value, Some(t.name), input).value)
    ensures var inst := Plugin(c, env, owner, wasi, functions);
      && r.0.plugins == inst.client.plugins
      && (Dict.Get(c.installs.items, owner.name) == Some(owner) ==> Dict.Get(r.0.installs.items, owner.name) == Some(inst.install))
    ensures Dict.Get(c.installs.items, owner.name) != Some(owner) ==> r.0.installs == c.installs
    ensures forall n :: n != owner.name ==> Dict.Get(r.0.installs.items, n) == Dict.Get(c.installs.items, n)
    ensures r.0.installs.duration == c.installs.duration && r.0.installs.lastUpdate == c.installs.lastUpdate
    ensures Dict.Wf(c.installs.items) ==> ToolIndex(r.0.installs.items) == ToolIndex(c.installs.items)
    ensures Valid(c) ==> Valid(r.0)
  {
    var inst := Plugin(c, env, owner, wasi, functions);
    var c' := WriteBack(inst.client, owner, inst.install);
    assert Dict.Wf(c.installs.items) ==> ToolIndex(c'.installs.items) == ToolIndex(c.installs.items) by {
      if Dict.Wf(c.installs.items) && inst.install != owner && Dict.Get(c.installs.items, owner.name) == Some(owner) {
        PutSameTools(c.installs.items, owner.name, owner, inst.install);
      }
    }
    match inst.plugin
    case Failure(e) => (c', Failure(e))
    case Success(p) =>
      match CallPlugin(env, p, Some(t.name), input)
      case Failure(e) => (c', Failure(e))
      case Success(content) => (c', Success(CallResult(content)))
  }

  /** `call(name)`: `self.tools[name]`, which raises KeyError for an unknown tool before any
      plugin is touched, then the call through the tool's servlet. */
  function Call(c: Client, env: Env, name: string, input: Json, wasi: bool, functions: nat): (r: (Client, Result<CallResult, Error>))
    ensures r.0.variant == c.variant && r.0.session == c.session && r.0.base == c.base
    ensures Tools(c, env).1.Failure? ==> r == (Tools(c, env).0, Failure(Tools(c, env).1.error))
    ensures var (c1, tools) := Tools(c, env);
      tools.Success? && name !in Dict.Keys(tools.value) ==> r == (c1, Failure(KeyError(name)))
    ensures Valid(c) ==> Valid(r.0)
  {
    var (c1, tools) := Tools(c, env);
    match tools
    case Failure(e) => (c1, Failure(e))
    case Success(index) =>
      match Dict.Get(index, name)
      case None => (c1, Failure(KeyError(name)))
      case Some(t) =>
        match Owner(c1, t)
        case None => (c1, Failure(AttributeError("'NoneType' object has no attribute 'name'")))
        case Some(owner) => CallTool(c1, env, t, owner, input, wasi, functions)
  }

  /** A listed tool always reaches the servlet that provides it: the back-reference never
      dangles in a client that keeps its invariant. */
  lemma CallFindsOwner(c: Client, env: Env, name: string, input: Json, wasi: bool, functions: nat)
    requires Valid(c) && c.variant == Mcpx
    requires Tools(c, env).1.Success? && name in Dict.Keys(Tools(c, env).1.value)
    ensures var c1 := Tools(c, env).0;
      var t := Dict.Get(ToolIndex(c1.installs.items), name).value;
      && Owner(c1, t).Some?
      && Dict.Get(Owner(c1, t).value.tools, name) == Some(t)
      && Call(c, env, name, input, wasi, functions) == CallTool(c1, env, t, Owner(c1, t).value, input, wasi, functions)
  {
    var c1 := Tools(c, env).0;
    ToolIndexOwner(c1, name);
  }

  /** After a refresh whose listing no longer offers a tool, calling it raises KeyError, even
      if an instance of its servlet had been cached before. */
  lemma RemovedToolNotFound(c: Client, env: Env, name: string, input: Json, wasi: bool, functions: nat)
    requires Cache.NeedsRefresh(c.installs, env.now) && Fetch(c, env).error.None?
    requires forall i, m :: 0 <= i < |Fetch(c, env).servlets| && 0 <= m < |Fetch(c, env).servlets[i].tools.entries| ==>
      Fetch(c, env).servlets[i].tools.entries[m].1.name != name
    ensures Call(c, env, name, input, wasi, functions).1 == Failure(KeyError(name))
    ensures Dict.Keys(Call(c, env, name, input, wasi, functions).0.plugins.items) == {}
  {
    var c1 := Installs(c, env).0;
    var items := c1.installs.items;
    var ss := Fetch(c, env).servlets;
    var named := Named(ss);
    Dict.PutAllFrom(named);
    assert items == Dict.PutAll(Dict.Empty(), named);
    forall i, m | 0 <= i < |items.entries| && 0 <= m < |items.entries[i].1.tools.entries|
      ensures items.entries[i].1.tools.entries[m].1.name != name
    {
      var j :| 0 <= j < |named| && items.entries[i] == named[j];
      assert items.entries[i].1 == ss[j];
    }
    ToolIndexKeys(items, name);
  }

  /** End to end: calling a listed tool sends the sandbox the tool's name and input and
      answers the blocks it writes back, in order. */
  lemma CallAnswersBlocks(c: Client, env: Env, name: string, input: Json, wasi: bool, bs: seq<Block>)
    requires Valid(c) && c.variant == Mcpx
    requires Tools(c, env).1.Success? && name in Dict.Keys(Tools(c, env).1.value)
    requires var c1 := Tools(c, env).0;
      var t := Dict.Get(ToolIndex(c1.installs.items), name).value;
      Owner(c1, t).Some? && Plugin(c1, env, Owner(c1, t).value, wasi, 0).plugin.Success?
    requires var c1 := Tools(c, env).0;
      var t := Dict.Get(ToolIndex(c1.installs.items), name).value;
      var p := Plugin(c1, env, Owner(c1, t).value, wasi, 0).plugin.value;
      env.invoke(p.plugin.manifest, p.plugin.wasi, Request(name, input)) == Success(ReplyJson(bs))
    requires Decodable(env, bs)
    ensures Call(c, env, name, input, wasi, 0).1 == Success(CallResult(Expected(env, bs)))
  {
    var c1 := Tools(c, env).0;
    var t := Dict.Get(ToolIndex(c1.installs.items), name).value;
    CallFindsOwner(c, env, name, input, wasi, 0);
    ToolIndexOwner(c1, name);
    var owner := Owner(c1, t).value;
    var p := Plugin(c1, env, owner, wasi, 0).plugin.value;
    CallPluginReply(env, p, Some(t.name), input, bs);
    var r := CallTool(c1, env, t, owner, input, wasi, 0);
    assert r.1 == Success(CallResult(Expected(env, bs)));
  }

  lemma KeyedConcat(a: seq<(Servlet, Tool)>, b: seq<(Servlet, Tool)>)
    ensures Keyed(a + b) == Keyed(a) + Keyed(b)
  {
    assert forall k :: 0 <= k < |a + b| ==> Keyed(a + b)[k] == (Keyed(a) + Keyed(b))[k];
  }

  /** The index only sees the servlets' tools: servlets with the same tools, in the same
      order, give the same index entries. */
  lemma {:induction false} ProvidedSameTools(a: seq<Servlet>, b: seq<Servlet>)
    requires |a| == |b| && forall i :: 0 <= i < |a| ==> a[i].tools == b[i].tools
    ensures Keyed(Provided(a)) == Keyed(Provided(b))
    decreases |a|
  {
    if |a| > 0 {
      var n := |a| - 1;
      ProvidedSameTools(a[..n], b[..n]);
      KeyedConcat(Provided(a[..n]), Offered(a[n]));
      KeyedConcat(Provided(b[..n]), Offered(b[n]));
      assert Keyed(Offered(a[n])) == Keyed(Offered(b[n]));
    }
  }

  /** Replacing a cached servlet by one with the same tools leaves the tool index as it was. */
  lemma PutSameTools(items: Dict.Dict<string, Servlet>, k: string, s: Servlet, s': Servlet)
    requires Dict.Wf(items) && Dict.Get(items, k) == Some(s) && s'.tools == s.tools
    ensures ToolIndex(Dict.Put(items, k, s')) == ToolIndex(items)
  {
    var r := Dict.Put(items, k, s');
    assert Dict.KeySeq(r) == Dict.KeySeq(items);
    forall i | 0 <= i < |r.entries|
      ensures Dict.Values(r)[i].tools == Dict.Values(items)[i].tools
    {
      if r.entries[i] == (k, s') {
        assert Dict.KeySeq(r)[i] == Dict.KeySeq(items)[i];
        Dict.LookupAt(items.entries, i);
      }
    }
    ProvidedSameTools(Dict.Values(r), Dict.Values(items));
  }

  /** In a valid client a servlet found under a name carries that name. */
  lemma CachedUnderOwnName(c: Client, k: string)
    requires Valid(c) && Dict.Get(c.installs.items, k).Some?
    ensures Dict.Get(c.installs.items, k).value.name == k
  {
    Dict.LookupFrom(c.installs.items.entries, k);
  }

  /** The module is downloaded once per refresh window: once a call has stored the bytes on
      the tool's servlet, a later call of the same tool, before the install cache is stale,
      finds the same tool and the same servlet, now carrying those bytes, and takes them from
      there instead of the network. (A call leaves the install cache's stamp as it was, so
      "still fresh" is stated of the cache the first call read.) */
  lemma StoredModuleReused(c: Client, env: Env, later: Env, name: string, input: Json, input2: Json, wasi: bool)
    requires Valid(c) && c.variant == Mcpx
    requires Tools(c, env).1.Success? && name in Dict.Keys(Tools(c, env).1.value)
    requires var c1 := Tools(c, env).0;
      var t := Dict.Get(ToolIndex(c1.installs.items), name).value;
      Owner(c1, t).Some? && Plugin(c1, env, Owner(c1, t).value, wasi, 0).install.content.Some?
    requires !Cache.NeedsRefresh(Tools(c, env).0.installs, later.now)
    ensures var c1 := Tools(c, env).0;
      var t := Dict.Get(ToolIndex(c1.installs.items), name).value;
      var owner := Owner(c1, t).value;
      var c2 := Call(c, env, name, input, wasi, 0).0;
      && Owner(c2, t) == Some(Plugin(c1, env, owner, wasi, 0).install)
      && Call(c2, later, name, input2, wasi, 0) == CallTool(c2, later, t, Owner(c2, t).value, input2, wasi, 0)
      && ModuleBytes(c2, later, Owner(c2, t).value) == Success(Plugin(c1, env, owner, wasi, 0).install.content.value)
  {
    var c1 := Tools(c, env).0;
    var items := c1.installs.items;
    var t := Dict.Get(ToolIndex(items), name).value;
    CallFindsOwner(c, env, name, input, wasi, 0);
    ToolIndexOwner(c1, name);
    var owner := Owner(c1, t).value;
    CachedUnderOwnName(c1, t.servlet.value);
    var inst := Plugin(c1, env, owner, wasi, 0);
    var c2 := Call(c, env, name, input, wasi, 0).0;
    assert !Cache.NeedsRefresh(c2.installs, later.now);
    assert Tools(c2, later) == (c2, Success(ToolIndex(items)));
  }
}
