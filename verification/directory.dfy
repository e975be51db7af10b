/**
 * The part of `Client` both client modules share, line for line: the configuration, the
 * `installs` property with its refresh rule, and `plugin`, which turns a servlet into a
 * sandbox instance through the plugin cache.
 */
module Directory {
  import opened Wrappers
  import opened Errors
  import opened Json
  import opened Servlets
  import opened Host
  import opened Plugins
  import Dict
  import Cache
  import Endpoints

  /** `ClientConfig.base_url`'s default. */
  const DefaultBaseUrl := "https://www.mcp.run"

  /** `ClientConfig.tool_refresh_time`'s default, one minute, in microseconds. */
  const DefaultRefresh := 60_000_000

  /** The message of the TypeError `cache_name += hash(func.pointer)` raises. */
  const ConcatError := "can only concatenate str (not \"int\") to str"

  datatype Client = Client(
    variant: Variant,
    session: string,
    base: string,
    installs: Cache.Cache<Servlet>,
    plugins: Cache.Cache<InstalledPlugin>)

  /** `Client(session_id, ClientConfig(base_url, tool_refresh_time))`: both caches empty; the
      install cache refreshes on first use unless it has no refresh time, and the plugin
      cache never asks for a refresh of its own. */
  function NewClient(v: Variant, session: string, base: string, refresh: Option<int>): (c: Client)
    ensures c.variant == v && c.session == session && c.base == base
    ensures Dict.Keys(c.installs.items) == {} && Dict.Keys(c.plugins.items) == {}
    ensures forall now :: Cache.NeedsRefresh(c.installs, now) <==> refresh.Some?
    ensures forall now :: !Cache.NeedsRefresh(c.plugins, now)
    ensures Valid(c)
  {
    Client(v, session, base, Cache.New(refresh), Cache.New(None))
  }

  /** `Client(session_id)` with the default configuration. */
  function DefaultClient(v: Variant, session: string): Client {
    NewClient(v, session, DefaultBaseUrl, Some(DefaultRefresh))
  }

  /** What the client keeps true of its caches: each servlet stored under its own name with
      its tools linked to it, each instance stored under its servlet's name, and both dicts
      without repeated keys. */
  ghost predicate Valid(c: Client) {
    && Dict.Wf(c.installs.items)
    && Dict.Wf(c.plugins.items)
    && (forall i :: 0 <= i < |c.installs.items.entries| ==>
         c.installs.items.entries[i].1.name == c.installs.items.entries[i].0
         && Linked(c.variant, c.installs.items.entries[i].1))
    && (forall i :: 0 <= i < |c.plugins.items.entries| ==>
         c.plugins.items.entries[i].1.install.name == c.plugins.items.entries[i].0)
  }

  /** `(install.name, install)` for each servlet, in order. */
  function Named(ss: seq<Servlet>): (ps: seq<(string, Servlet)>)
    ensures |ps| == |ss|
    ensures forall i :: 0 <= i < |ss| ==> ps[i] == (ss[i].name, ss[i])
  {
    seq(|ss|, i requires 0 <= i < |ss| => (ss[i].name, ss[i]))
  }

  /** `list_installs()` against the client's endpoint and session. */
  function Fetch(c: Client, env: Env): Fetched {
    ListInstalls(c.variant, env.getJson(Endpoints.Installations(c.base), c.session))
  }

  /** The `installs` property: the cached servlets while the cache is fresh; otherwise both
      caches are cleared, the list is fetched again and every servlet it yields is added under
      its name. An exception in the middle of the listing propagates, but what was added
      before it stays, and the cache has already been stamped as updated. */
  function Installs(c: Client, env: Env): (r: (Client, Result<Dict.Dict<string, Servlet>, Error>))
    ensures r.0.variant == c.variant && r.0.session == c.session && r.0.base == c.base
    ensures r.0.installs.duration == c.installs.duration && r.0.plugins.duration == c.plugins.duration
    ensures r.1.Success? ==> r.1.value == r.0.installs.items
    ensures !Cache.NeedsRefresh(c.installs, env.now) ==> r == (c, Success(c.installs.items))
    ensures Cache.NeedsRefresh(c.installs, env.now) ==>
      && r.0.installs.lastUpdate == Some(env.now)
      && r.0.plugins.lastUpdate == Some(env.now)
      && Dict.Keys(r.0.plugins.items) == {}
      && Dict.Keys(r.0.installs.items) == Dict.KeysOf(Named(Fetch(c, env).servlets))
      && (forall n :: Dict.Get(r.0.installs.items, n) == Dict.LastValue(Named(Fetch(c, env).servlets), n))
      && (r.1.Success? <==> Fetch(c, env).error.None?)
      && (r.1.Failure? ==> r.1.error == Fetch(c, env).error.value)
    ensures Valid(c) ==> Valid(r.0)
  {
    if !Cache.NeedsRefresh(c.installs, env.now) then (c, Success(c.installs.items))
    else
      var fetched := Fetch(c, env);
      var cleared := Cache.Clear(c.installs, env.now);
      var named := Named(fetched.servlets);
      var installs := cleared.(items := Dict.PutAll(cleared.items, named));
      var c' := c.(installs := installs, plugins := Cache.Clear(c.plugins, env.now));
      assert Valid(c') by {
        Dict.PutAllWf(cleared.items, named);
        Dict.PutAllFrom(named);
      }
      assert Dict.Keys(installs.items) == Dict.KeysOf(named) by {
        Dict.PutAllKeys(cleared.items, named);
      }
      assert forall n :: Dict.Get(installs.items, n) == Dict.LastValue(named, n) by {
        forall n
          ensures Dict.Get(installs.items, n) == Dict.LastValue(named, n)
        {
          Dict.PutAllGet(cleared.items, named, n);
        }
      }
      (c', if fetched.error.Some? then Failure(fetched.error.value) else Success(installs.items))
  }

  /** Within one refresh window the directory is fetched at most once: right after a refresh,
      any read before `duration` has passed is served from the cache. */
  lemma AtMostOneFetch(c: Client, env: Env, later: Env)
    requires Cache.NeedsRefresh(c.installs, env.now)
    requires c.installs.duration.Some? && env.now <= later.now < env.now + c.installs.duration.value
    ensures var c1 := Installs(c, env).0; Installs(c1, later) == (c1, Success(c1.installs.items))
  {
  }

  /** Once `duration` has passed since a refresh, the next read fetches again. */
  lemma RefetchAfterWindow(c: Client, env: Env, later: Env)
    requires Cache.NeedsRefresh(c.installs, env.now)
    requires c.installs.duration.Some? && later.now >= env.now + c.installs.duration.value
    ensures Cache.NeedsRefresh(Installs(c, env).0.installs, later.now)
  {
  }

  /** A listing that fails part-way leaves the servlets read before the failure in a cache that
      counts as fresh, so a read within the window returns that partial directory without an
      error. */
  lemma PartialListingServedLater(c: Client, env: Env, later: Env)
    requires Cache.NeedsRefresh(c.installs, env.now) && Fetch(c, env).error.Some?
    requires c.installs.duration.Some? && env.now <= later.now < env.now + c.installs.duration.value
    ensures Installs(c, env).1 == Failure(Fetch(c, env).error.value)
    ensures var c1 := Installs(c, env).0;
      && Dict.Keys(c1.installs.items) == Dict.KeysOf(Named(Fetch(c, env).servlets))
      && Installs(c1, later).1 == Success(c1.installs.items)
  {
  }

  /** `install.content`, downloading the module from its content address if it is not there
      yet. */
  function ModuleBytes(c: Client, env: Env, install: Servlet): (r: Result<Bytes, Error>)
    ensures install.content.Some? ==> r == Success(install.content.value)
    ensures install.content.None? ==> r == env.getBytes(Endpoints.Content(c.base, install.contentAddr), c.session)
  {
    if install.content.Some? then Success(install.content.value)
    else env.getBytes(Endpoints.Content(c.base, install.contentAddr), c.session)
  }

  /** What `plugin` leaves behind: the client, the servlet (whose module bytes may have been
      stored on it), and the plugin or the exception. */
  datatype Instantiated = Instantiated(client: Client, install: Servlet, plugin: Result<InstalledPlugin, Error>)

  /** The cache-miss path of `plugin`: fetch the module if needed, build the manifest, load
      the sandbox and cache it under the servlet's name. */
  function Instantiate(c: Client, env: Env, install: Servlet, wasi: bool): (r: Instantiated)
    ensures r.client.variant == c.variant && r.client.session == c.session && r.client.base == c.base
    ensures r.client.installs == c.installs
    ensures r.client.plugins.duration == c.plugins.duration && r.client.plugins.lastUpdate == c.plugins.lastUpdate
    ensures r.install == install.(content := r.install.content)
    ensures install.content.Some? ==> r.install == install
    ensures install.content.None? ==> (r.install.content.Some? <==> ModuleBytes(c, env, install).Success?)
    ensures r.install.content.Some? ==> r.install.content == Some(ModuleBytes(c, env, install).value)
    ensures r.plugin.Failure? ==> r.client == c
    ensures ModuleBytes(c, env, install).Failure? ==> r.plugin == Failure(ModuleBytes(c, env, install).error)
    ensures ModuleBytes(c, env, install).Success? ==>
      var built := BuildManifest(install.settings, ModuleBytes(c, env, install).value);
      && (built.Failure? ==> r.plugin == Failure(built.error))
      && (built.Success? && env.load(built.value, wasi).Some? ==> r.plugin == Failure(env.load(built.value, wasi).value))
      && (built.Success? && env.load(built.value, wasi).None? ==>
            r.plugin == Success(InstalledPlugin(install.(content := Some(ModuleBytes(c, env, install).value)), Sandbox(built.value, wasi))))
    ensures r.plugin.Success? ==>
      && r.install.content.Some?
      && r.plugin.value.install == r.install
      && r.plugin.value.plugin.wasi == wasi
      && BuildManifest(install.settings, r.install.content.value) == Success(r.plugin.value.plugin.manifest)
      && env.load(r.plugin.value.plugin.manifest, wasi).None?
      && Dict.Get(r.client.plugins.items, install.name) == Some(r.plugin.value)
      && (forall k :: k != install.name ==> Dict.Get(r.client.plugins.items, k) == Dict.Get(c.plugins.items, k))
    ensures Valid(c) ==> Valid(r.client)
  {
    match ModuleBytes(c, env, install)
    case Failure(e) => Instantiated(c, install, Failure(e))
    case Success(wasm) =>
      var stored := install.(content := Some(wasm));
      match BuildManifest(stored.settings, wasm)
      case Failure(e) => Instantiated(c, stored, Failure(e))
      case Success(manifest) =>
        match env.load(manifest, wasi)
        case Some(e) => Instantiated(c, stored, Failure(e))
        case None =>
          var p := InstalledPlugin(stored, Sandbox(manifest, wasi));
          Instantiated(c.(plugins := Cache.Add(c.plugins, install.name, p)), stored, Success(p))
  }

  /** `plugin(install, wasi, functions)`: any host function makes the cache-name computation
      raise; otherwise the cache is searched under the hashed name and, on a miss, a new
      instance is built. */
  function Plugin(c: Client, env: Env, install: Servlet, wasi: bool, functions: nat): (r: Instantiated)
    ensures functions > 0 ==> r == Instantiated(c, install, Failure(TypeError(ConcatError)))
    ensures functions == 0 && LookupKey(env, install.name, wasi) in Dict.Keys(c.plugins.items) ==>
      r == Instantiated(c, install, Success(Dict.Get(c.plugins.items, LookupKey(env, install.name, wasi)).value))
    ensures functions == 0 && LookupKey(env, install.name, wasi) !in Dict.Keys(c.plugins.items) ==>
      r == Instantiate(c, env, install, wasi)
    ensures Valid(c) ==> Valid(r.client)
  {
    if functions > 0 then Instantiated(c, install, Failure(TypeError(ConcatError)))
    else
      match Dict.Get(c.plugins.items, LookupKey(env, install.name, wasi))
      case Some(p) => Instantiated(c, install, Success(p))
      case None => Instantiate(c, env, install, wasi)
  }

  /** The plugin cache is searched under `str(hash(...))` but filled under the servlet's name,
      so while no cached name looks like a number every request builds a new instance. */
  lemma PluginAlwaysMisses(c: Client, env: Env, install: Servlet, wasi: bool)
    requires forall k :: k in Dict.Keys(c.plugins.items) ==> !Numeral(k)
    ensures Plugin(c, env, install, wasi, 0) == Instantiate(c, env, install, wasi)
  {
  }

  /** Asking twice for the same servlet instantiates twice; only the module download is saved,
      because the bytes are kept on the servlet. */
  lemma SecondRequestRebuilds(c: Client, env: Env, install: Servlet, wasi: bool)
    requires forall k :: k in Dict.Keys(c.plugins.items) ==> !Numeral(k)
    requires !Numeral(install.name)
    requires Plugin(c, env, install, wasi, 0).plugin.Success?
    ensures var first := Plugin(c, env, install, wasi, 0);
      && Plugin(first.client, env, first.install, wasi, 0) == Instantiate(first.client, env, first.install, wasi)
      && Plugin(first.client, env, first.install, wasi, 0).install == first.install
  {
    var first := Plugin(c, env, install, wasi, 0);
    assert forall k :: k in Dict.Keys(first.client.plugins.items) ==> k == install.name || k in Dict.Keys(c.plugins.items);
  }

  /** When a cached servlet's name happens to be the hashed cache name of a request for a
      servlet whose name is not a numeral, that request is answered with the instance of the
      other servlet. */
  lemma NumeralNameServesOtherPlugin(c: Client, env: Env, cached: InstalledPlugin, install: Servlet, wasi: bool)
    requires Valid(c)
    requires Dict.Get(c.plugins.items, LookupKey(env, install.name, wasi)) == Some(cached)
    requires !Numeral(install.name)
    ensures Plugin(c, env, install, wasi, 0).plugin == Success(cached)
    ensures cached.install.name == LookupKey(env, install.name, wasi) != install.name
  {
    Dict.LookupFrom(c.plugins.items.entries, LookupKey(env, install.name, wasi));
  }

  /** Every `(install, tool)` pair, in `installs.values()` then `install.tools.values()`
      order: the order both `tools` properties fill their index in. */
  function Provided(ss: seq<Servlet>): (ps: seq<(Servlet, Tool)>)
    decreases |ss|
  {
    if |ss| == 0 then [] else Provided(ss[..|ss| - 1]) + Offered(ss[|ss| - 1])
  }

  function Offered(s: Servlet): (ps: seq<(Servlet, Tool)>)
    ensures |ps| == |s.tools.entries|
    ensures forall m :: 0 <= m < |ps| ==> ps[m] == (s, s.tools.entries[m].1)
  {
    seq(|s.tools.entries|, m requires 0 <= m < |s.tools.entries| => (s, s.tools.entries[m].1))
  }

  /** The tools of `a + b` are those of `a`, then those of `b`. */
  lemma {:induction false} ProvidedConcat(a: seq<Servlet>, b: seq<Servlet>)
    ensures Provided(a + b) == Provided(a) + Provided(b)
    decreases |b|
  {
    if |b| == 0 {
      assert a + b == a;
    } else {
      var n := |b| - 1;
      assert (a + b)[..|a + b| - 1] == a + b[..n];
      assert (a + b)[|a + b| - 1] == b[n];
      assert Provided(a + b) == Provided(a + b[..n]) + Offered(b[n]);
      ProvidedConcat(a, b[..n]);
      assert Provided(b) == Provided(b[..n]) + Offered(b[n]);
    }
  }

  /** Some installed servlet has a tool called `n`. */
  ghost predicate Offers(items: Dict.Dict<string, Servlet>, n: string) {
    exists i, m :: 0 <= i < |items.entries| && 0 <= m < |items.entries[i].1.tools.entries|
      && items.entries[i].1.tools.entries[m].1.name == n
  }

  /** `p` pairs one of the servlets with one of its tools. */
  ghost predicate Source(ss: seq<Servlet>, p: (Servlet, Tool)) {
    exists j, m :: 0 <= j < |ss| && 0 <= m < |ss[j].tools.entries| && p == (ss[j], ss[j].tools.entries[m].1)
  }

  /** Each pair comes from one of the servlets and one of its tools. */
  lemma {:induction false} ProvidedFrom(ss: seq<Servlet>)
    ensures forall k :: 0 <= k < |Provided(ss)| ==> Source(ss, Provided(ss)[k])
    decreases |ss|
  {
    if |ss| > 0 {
      var n := |ss| - 1;
      var init := Provided(ss[..n]);
      ProvidedFrom(ss[..n]);
      forall k | 0 <= k < |Provided(ss)|
        ensures Source(ss, Provided(ss)[k])
      {
        if k < |init| {
          assert Source(ss[..n], init[k]);
          var j, m :| 0 <= j < n && 0 <= m < |ss[..n][j].tools.entries| && init[k] == (ss[..n][j], ss[..n][j].tools.entries[m].1);
          assert ss[..n][j] == ss[j];
          assert Provided(ss)[k] == init[k];
        } else {
          var m := k - |init|;
          assert Provided(ss)[k] == Offered(ss[n])[m];
        }
      }
    } else {
      assert Provided(ss) == [];
    }
  }

  /** Each tool of each servlet has its pair. */
  lemma {:induction false} ProvidedCovers(ss: seq<Servlet>, j: nat, m: nat)
    requires j < |ss| && m < |ss[j].tools.entries|
    ensures exists k :: 0 <= k < |Provided(ss)| && Provided(ss)[k] == (ss[j], ss[j].tools.entries[m].1)
    decreases |ss|
  {
    var n := |ss| - 1;
    var init := Provided(ss[..n]);
    if j == n {
      assert Provided(ss)[|init| + m] == Offered(ss[n])[m];
    } else {
      assert ss[..n][j] == ss[j];
      ProvidedCovers(ss[..n], j, m);
      var k :| 0 <= k < |init| && init[k] == (ss[j], ss[j].tools.entries[m].1);
      assert Provided(ss)[k] == init[k];
    }
  }

  /** The module bytes `plugin` stores on the servlet object show through the install cache
      when that object is the one cached under its name. */
  function WriteBack(c: Client, before: Servlet, after: Servlet): (r: Client)
    requires after == before.(content := after.content)
    ensures r.variant == c.variant && r.session == c.session && r.base == c.base && r.plugins == c.plugins
    ensures r.installs.duration == c.installs.duration && r.installs.lastUpdate == c.installs.lastUpdate
    ensures Dict.Get(c.installs.items, before.name) == Some(before) ==> Dict.Get(r.installs.items, before.name) == Some(after)
    ensures forall n :: n != before.name ==> Dict.Get(r.installs.items, n) == Dict.Get(c.installs.items, n)
    ensures Dict.Get(c.installs.items, before.name) != Some(before) ==> r == c
    ensures Valid(c) ==> Valid(r)
  {
    if after != before && Dict.Get(c.installs.items, before.name) == Some(before) then
      var c' := c.(installs := Cache.Add(c.installs, before.name, after));
      assert Valid(c) ==> Valid(c') by {
        if Valid(c) {
          Dict.LookupFrom(c.installs.items.entries, before.name);
          StillLinked(c.variant, before, after);
        }
      }
      c'
    else c
  }

  lemma StillLinked(v: Variant, before: Servlet, after: Servlet)
    requires after == before.(content := after.content) && Linked(v, before)
    ensures Linked(v, after)
  {
  }
}
