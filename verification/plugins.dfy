/**
 * Sandbox instances: the manifest a servlet's settings become, the cache key a plugin is
 * looked up under, and `InstalledPlugin.call` — the request envelope and the decoding of
 * the reply into content blocks.
 */
module Plugins {
  import opened Wrappers
  import opened Errors
  import opened Json
  import opened Servlets
  import opened Host
  import Dict
  import Strings

  /** An `ext.Plugin` built from a manifest (the extra host functions are always empty). */
  datatype Sandbox = Sandbox(manifest: Manifest, wasi: bool)

  datatype InstalledPlugin = InstalledPlugin(install: Servlet, plugin: Sandbox)

  /** The manifest built from a servlet's settings: `settings["permissions"]` must name
      `filesystem` and `network`; missing volumes, domains and config become empty. */
  function BuildManifest(settings: Json, wasm: Bytes): (r: Result<Manifest, Error>)
    ensures r.Success? <==>
      && Index(settings, "permissions").Success?
      && Index(Index(settings, "permissions").value, "filesystem").Success?
      && Index(Index(settings, "permissions").value, "filesystem").value.JObj?
      && Index(Index(settings, "permissions").value, "network").Success?
      && Index(Index(settings, "permissions").value, "network").value.JObj?
    ensures r.Success? ==> r.value.wasm == wasm
    ensures r.Success? ==> settings.JObj? && "permissions" in Dict.Keys(settings.fields)
    ensures r.Success? ==> var perm := Index(settings, "permissions").value;
      && Index(perm, "filesystem").Success? && Index(perm, "filesystem").value.JObj?
      && Index(perm, "network").Success? && Index(perm, "network").value.JObj?
      && r.value.allowedPaths == Dict.Get(Index(perm, "filesystem").value.fields, "volumes").GetOr(Obj([]))
      && r.value.allowedHosts == Dict.Get(Index(perm, "network").value.fields, "domains").GetOr(JArr([]))
      && r.value.config == Dict.Get(settings.fields, "config").GetOr(Obj([]))
  {
    var perm :- Index(settings, "permissions");
    var filesystem :- Index(perm, "filesystem");
    var paths :- GetOr(filesystem, "volumes", Obj([]));
    var network :- Index(perm, "network");
    var hosts :- GetOr(network, "domains", JArr([]));
    // `settings` is a dict by now, so `.get` cannot raise.
    var config := Dict.Get(settings.fields, "config").GetOr(Obj([]));
    Success(Manifest(wasm, paths, hosts, config))
  }

  /** Default deny: permissions that name no network domains and no volumes give a sandbox
      with no allowed hosts and no mounted paths. */
  lemma DefaultDeny(settings: Json, wasm: Bytes)
    requires BuildManifest(settings, wasm).Success?
    requires "domains" !in Dict.Keys(Index(Index(settings, "permissions").value, "network").value.fields)
    requires "volumes" !in Dict.Keys(Index(Index(settings, "permissions").value, "filesystem").value.fields)
    ensures BuildManifest(settings, wasm).value.allowedHosts == JArr([])
    ensures BuildManifest(settings, wasm).value.allowedPaths == Obj([])
  {
  }

  /** Settings whose permissions name only empty `filesystem` and `network` dicts build a
      manifest: the missing volumes, domains and config take their defaults instead of
      raising. */
  lemma BarePermissionsBuild(wasm: Bytes)
    ensures var settings := Obj([("permissions", Obj([("filesystem", Obj([])), ("network", Obj([]))]))]);
      BuildManifest(settings, wasm) == Success(Manifest(wasm, Obj([]), JArr([]), Obj([])))
  {
    var perm := [("filesystem", Obj([])), ("network", Obj([]))];
    IndexObj([("permissions", Obj(perm))], 0);
    IndexObj(perm, 0);
    IndexObj(perm, 1);
  }

  /** `f"{install.name}-{wasi}"`. */
  function CacheName(name: string, wasi: bool): string {
    name + "-" + Strings.BoolToString(wasi)
  }

  /** `str(hash(cache_name))`: the key the plugin cache is searched under. */
  function LookupKey(env: Env, name: string, wasi: bool): (k: string)
    ensures Numeral(k)
  {
    Strings.IntToString(env.hash(CacheName(name, wasi)))
  }

  /** The shape of `str(int)`: an optional minus, then digits without a leading zero; or
      just "0". */
  predicate Numeral(s: string) {
    var d := if |s| > 0 && s[0] == '-' then s[1..] else s;
    && |d| > 0
    && (forall i :: 0 <= i < |d| ==> Strings.IsDigit(d[i]))
    && (d[0] == '0' ==> s == "0")
  }

  /** `{"params": {"arguments": input, "name": tool}}`. */
  function Request(tool: string, input: Json): Json {
    Obj([("params", Obj([("arguments", input), ("name", JStr(tool))]))])
  }

  /** The sandbox reads back the tool name and the arguments it was sent. */
  lemma RequestFields(tool: string, input: Json)
    ensures Index(Request(tool, input), "params").Success?
    ensures Index(Index(Request(tool, input), "params").value, "name") == Success(JStr(tool))
    ensures Index(Index(Request(tool, input), "params").value, "arguments") == Success(input)
  {
    var inner := [("arguments", input), ("name", JStr(tool))];
    IndexObj([("params", Obj(inner))], 0);
    IndexObj(inner, 0);
    IndexObj(inner, 1);
  }

  /** `c["text"].encode()`: only a str has `.encode`. */
  function EncodeText(env: Env, j: Json): (r: Result<Bytes, Error>)
    ensures r.Success? <==> j.JStr?
    ensures j.JStr? ==> r.value == env.utf8Encode(j.s)
  {
    if j.JStr? then Success(env.utf8Encode(j.s))
    else Failure(AttributeError("'" + TypeName(j) + "' object has no attribute 'encode'"))
  }

  /** `base64.b64decode(c["data"])`. */
  function DecodeBase64(env: Env, j: Json): (r: Result<Bytes, Error>)
    ensures j.JStr? ==> r == env.b64Decode(j.s)
    ensures !j.JStr? ==> r.Failure?
  {
    if j.JStr? then env.b64Decode(j.s)
    else Failure(TypeError("argument should be a bytes-like object or ASCII string, not '" + TypeName(j) + "'"))
  }

  /** One entry of the reply's `content` list: a text or image block, or nothing for any other
      type. */
  function DecodeEntry(env: Env, c: Json): (r: Result<Option<Content>, Error>)
    ensures r.Success? && r.value.Some? ==> r.value.value.kind in {"text", "image"}
    ensures r.Success? && r.value.Some? && r.value.value.kind == "text" ==> r.value.value.mimeType == TextPlain
  {
    var ty :- Index(c, "type");
    if ty == JStr("text") then
      var text :- Index(c, "text");
      var data :- EncodeText(env, text);
      Success(Some(Content("text", TextPlain, Some(data))))
    else if ty == JStr("image") then
      var encoded :- Index(c, "data");
      var data :- DecodeBase64(env, encoded);
      var mime :- Index(c, "mimeType");
      Success(Some(Content("image", mime, Some(data))))
    else
      Success(None)
  }

  /** The `for c in r["content"]` loop: decoded blocks in entry order; the first entry that
      raises ends the call. */
  function DecodeEntries(env: Env, cs: seq<Json>): (r: Result<seq<Content>, Error>)
    ensures r.Success? ==> |r.value| <= |cs|
    ensures r.Success? ==> forall i :: 0 <= i < |r.value| ==> r.value[i].kind in {"text", "image"}
    decreases |cs|
  {
    if |cs| == 0 then Success([])
    else
      var first :- DecodeEntry(env, cs[0]);
      var rest :- DecodeEntries(env, cs[1..]);
      Success(if first.Some? then [first.value] + rest else rest)
  }

  /** `json.loads` of the reply, then its `content` list decoded. */
  function DecodeReply(env: Env, reply: Json): Result<seq<Content>, Error> {
    var content :- Index(reply, "content");
    var entries :- Iter(content);
    DecodeEntries(env, entries)
  }

  /** `InstalledPlugin.call`: the tool defaults to the install's name. */
  function CallPlugin(env: Env, ip: InstalledPlugin, tool: Option<string>, input: Json): Result<seq<Content>, Error> {
    var reply :- env.invoke(ip.plugin.manifest, ip.plugin.wasi, Request(tool.GetOr(ip.install.name), input));
    DecodeReply(env, reply)
  }

  // The sandbox's side: what a module writes back.

  /** A block as a module emits it. */
  datatype Block =
    | TextBlock(text: string)
    | ImageBlock(data: string, mimeType: string)
    | OtherBlock(kind: string)

  function BlockJson(b: Block): Json {
    match b
    case TextBlock(t) => Obj([("type", JStr("text")), ("text", JStr(t))])
    case ImageBlock(d, m) => Obj([("type", JStr("image")), ("data", JStr(d)), ("mimeType", JStr(m))])
    case OtherBlock(k) => Obj([("type", JStr(k))])
  }

  function BlocksJson(bs: seq<Block>): (r: seq<Json>)
    ensures |r| == |bs|
    ensures forall i :: 0 <= i < |bs| ==> r[i] == BlockJson(bs[i])
  {
    seq(|bs|, i requires 0 <= i < |bs| => BlockJson(bs[i]))
  }

  function ReplyJson(bs: seq<Block>): Json {
    Obj([("content", JArr(BlocksJson(bs)))])
  }

  /** A reply the client can decode: image payloads are valid base64 and the other blocks
      really are of another type. */
  predicate Decodable(env: Env, bs: seq<Block>) {
    forall i :: 0 <= i < |bs| ==>
      match bs[i]
      case ImageBlock(d, _) => env.b64Decode(d).Success?
      case OtherBlock(k) => k != "text" && k != "image"
      case TextBlock(_) => true
  }

  /** The content blocks a reply stands for: texts as UTF-8 `text/plain`, images as their
      decoded bytes with their MIME type, in order; other blocks dropped. */
  function Expected(env: Env, bs: seq<Block>): (r: seq<Content>)
    requires Decodable(env, bs)
    ensures |r| <= |bs|
    decreases |bs|
  {
    if |bs| == 0 then []
    else
      var rest := Expected(env, bs[1..]);
      match bs[0]
      case TextBlock(t) => [Content("text", TextPlain, Some(env.utf8Encode(t)))] + rest
      case ImageBlock(d, m) => [Content("image", JStr(m), Some(env.b64Decode(d).value))] + rest
      case OtherBlock(_) => rest
  }

  lemma DecodeBlock(env: Env, b: Block)
    requires Decodable(env, [b])
    ensures DecodeEntry(env, BlockJson(b)) == Success(if b.OtherBlock? then None else Some(Expected(env, [b])[0]))
  {
    match b
    case TextBlock(t) =>
      var fs := [("type", JStr("text")), ("text", JStr(t))];
      IndexObj(fs, 0);
      IndexObj(fs, 1);
    case ImageBlock(d, m) =>
      var fs := [("type", JStr("image")), ("data", JStr(d)), ("mimeType", JStr(m))];
      IndexObj(fs, 0);
      IndexObj(fs, 1);
      IndexObj(fs, 2);
      assert Decodable(env, [b]) ==> env.b64Decode(d).Success? by {
        assert [b][0] == b;
      }
    case OtherBlock(k) =>
      IndexObj([("type", JStr(k))], 0);
      assert [b][0] == b;
  }

  lemma {:induction false} DecodeBlocks(env: Env, bs: seq<Block>)
    requires Decodable(env, bs)
    ensures DecodeEntries(env, BlocksJson(bs)) == Success(Expected(env, bs))
    decreases |bs|
  {
    if |bs| > 0 {
      var js := BlocksJson(bs);
      assert Decodable(env, [bs[0]]) by {
        assert [bs[0]][0] == bs[0];
      }
      DecodeBlock(env, bs[0]);
      assert js[1..] == BlocksJson(bs[1..]);
      DecodeBlocks(env, bs[1..]);
    }
  }

  /** A tool call answers exactly the blocks the module wrote, in the module's order, with
      blocks of other types dropped; the request carries the chosen tool (by default the
      install's name) and the input. */
  lemma CallPluginReply(env: Env, ip: InstalledPlugin, tool: Option<string>, input: Json, bs: seq<Block>)
    requires env.invoke(ip.plugin.manifest, ip.plugin.wasi, Request(tool.GetOr(ip.install.name), input)) == Success(ReplyJson(bs))
    requires Decodable(env, bs)
    ensures CallPlugin(env, ip, tool, input) == Success(Expected(env, bs))
  {
    IndexObj([("content", JArr(BlocksJson(bs)))], 0);
    DecodeBlocks(env, bs);
  }

  /** The order example: blocks text "a", an image, text "c" come back in that order. */
  lemma ContentOrderExample(env: Env, image: string, mime: string)
    requires env.b64Decode(image).Success?
    ensures var r := Expected(env, [TextBlock("a"), ImageBlock(image, mime), TextBlock("c")]);
      && |r| == 3
      && r[0] == Content("text", TextPlain, Some(env.utf8Encode("a")))
      && r[1] == Content("image", JStr(mime), Some(env.b64Decode(image).value))
      && r[2] == Content("text", TextPlain, Some(env.utf8Encode("c")))
  {
    var bs := [TextBlock("a"), ImageBlock(image, mime), TextBlock("c")];
    assert bs[1..] == [ImageBlock(image, mime), TextBlock("c")];
    assert bs[1..][1..] == [TextBlock("c")];
    assert bs[1..][1..][1..] == [];
    var last := Expected(env, [TextBlock("c")]);
    assert last == [Content("text", TextPlain, Some(env.utf8Encode("c")))];
  }
}
