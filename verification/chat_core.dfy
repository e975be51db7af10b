/**
 * What the chat providers of both modules share: the vendors, the history a provider keeps,
 * the tool descriptions each vendor expects, the opening of a turn, the prompt an error is
 * reported with, and the replies a vendor answers with.
 */
module ChatCore {
  import opened Wrappers
  import opened Errors
  import opened Json
  import opened Servlets
  import opened Host
  import opened Directory
  import Dict

  datatype Vendor = Ollama | OpenAI | Claude

  /** `SYSTEM_PROMPT`, the default system message. */
  const SystemPrompt: string :=
    "\n- when evaluating a javascript function code don't print the result to stdout\n"
    + "  instead just call the generated javascript function on its own since the code\n"
    + "  will be executed using eval\n"
    + "- Do not come up with directions or indications.\n"
    + "- Always use the provided functions when applicable, and share the results of\n"
    + "  tool calls with the user\n"
    + "- Invoke the tools upon requests you cannot fulfill on your own\n"
    + "  and parse the responses\n"
    + "- Do not invoke the same tool multiple times in a row with the same\n"
    + "  arguments\n"
    + "- Always try to provide a well formatted, itemized summary\n"

  /** A history entry `{"role": role, "content": content}`. */
  datatype Message = Message(role: string, content: string)

  /** A chat provider: its vendor, the configured system prompt, the history, the tool
      descriptions last fetched, and the mcp.run client it calls tools through. */
  datatype Provider = Provider(vendor: Vendor, system: string, messages: seq<Message>, tools: seq<Json>, client: Client)

  /** `ChatProvider(config)`: empty history, no tools. */
  function NewProvider(v: Vendor, system: string, client: Client): (p: Provider)
    ensures p.messages == [] && p.tools == [] && p.vendor == v && p.system == system && p.client == client
    ensures HistoryOk(v, p.messages)
  {
    Provider(v, system, [], [], client)
  }

  // Tool descriptions.

  /** `_convert_tool`: Ollama and OpenAI wrap the tool as a function; Claude takes it flat. */
  function ConvertTool(v: Vendor, t: Tool): Json {
    if v == Claude then
      Obj([("name", JStr(t.name)), ("description", t.description), ("input_schema", t.inputSchema)])
    else
      Obj([("type", JStr("function")),
           ("function", Obj([("name", JStr(t.name)), ("description", t.description), ("parameters", t.inputSchema)]))])
  }

  /** What a vendor reads out of a tool description: the name, description and schema. */
  function ToolFields(v: Vendor, j: Json): Result<(Json, Json, Json), Error> {
    var f :- if v == Claude then Success(j) else Index(j, "function");
    var name :- Index(f, "name");
    var description :- Index(f, "description");
    var schema :- Index(f, if v == Claude then "input_schema" else "parameters");
    Success((name, description, schema))
  }

  /** Every vendor reads back exactly the tool's name, description and input schema. */
  lemma ConvertToolFields(v: Vendor, t: Tool)
    ensures ToolFields(v, ConvertTool(v, t)) == Success((JStr(t.name), t.description, t.inputSchema))
  {
    var inner := [("name", JStr(t.name)), ("description", t.description), ("parameters", t.inputSchema)];
    if v == Claude {
      var flat := [("name", JStr(t.name)), ("description", t.description), ("input_schema", t.inputSchema)];
      IndexObj(flat, 0);
      IndexObj(flat, 1);
      IndexObj(flat, 2);
    } else {
      IndexObj([("type", JStr("function")), ("function", Obj(inner))], 1);
      IndexObj(inner, 0);
      IndexObj(inner, 1);
      IndexObj(inner, 2);
    }
  }

  /** `get_tools`: `installs` (refreshing if due), then every tool of every servlet converted,
      in order and without removing repeated names. When `installs` raises, the previous tool
      list stays. */
  function GetTools(p: Provider, env: Env): (r: (Provider, Result<seq<Json>, Error>))
    ensures r.0.vendor == p.vendor && r.0.system == p.system && r.0.messages == p.messages
    ensures r.0.client == Installs(p.client, env).0
    ensures r.1.Failure? <==> Installs(p.client, env).1.Failure?
    ensures r.1.Failure? ==> r.0.tools == p.tools && r.1.error == Installs(p.client, env).1.error
    ensures r.1.Success? ==> r.0.tools == r.1.value
    ensures r.1.Success? ==> var ps := Provided(Dict.Values(r.0.client.installs.items));
      && |r.1.value| == |ps|
      && forall k :: 0 <= k < |ps| ==> r.1.value[k] == ConvertTool(p.vendor, ps[k].1)
  {
    var (c', installs) := Installs(p.client, env);
    match installs
    case Failure(e) => (p.(client := c'), Failure(e))
    case Success(items) =>
      var ps := Provided(Dict.Values(items));
      var tools := seq(|ps|, k requires 0 <= k < |ps| => ConvertTool(p.vendor, ps[k].1));
      (p.(client := c', tools := tools), Success(tools))
  }

  /** The model is told about exactly the tools the cached servlets offer: each description
      reads back to a tool of some servlet, and every tool of every servlet is described. */
  lemma GetToolsAdvertisesOffered(p: Provider, env: Env, j: nat, m: nat)
    requires GetTools(p, env).1.Success?
    requires var items := GetTools(p, env).0.client.installs.items;
      j < |items.entries| && m < |items.entries[j].1.tools.entries|
    ensures var (p', tools) := GetTools(p, env);
      var t := p'.client.installs.items.entries[j].1.tools.entries[m].1;
      exists k :: 0 <= k < |tools.value| && tools.value[k] == ConvertTool(p.vendor, t)
  {
    var (p', tools) := GetTools(p, env);
    var ss := Dict.Values(p'.client.installs.items);
    ProvidedCovers(ss, j, m);
    var k :| 0 <= k < |Provided(ss)| && Provided(ss)[k] == (ss[j], ss[j].tools.entries[m].1);
    assert tools.value[k] == ConvertTool(p.vendor, ss[j].tools.entries[m].1);
  }

  lemma GetToolsDescribesOffered(p: Provider, env: Env, k: nat)
    requires GetTools(p, env).1.Success? && k < |GetTools(p, env).1.value|
    ensures var (p', tools) := GetTools(p, env);
      var items := p'.client.installs.items;
      exists j, m :: 0 <= j < |items.entries| && 0 <= m < |items.entries[j].1.tools.entries|
        && ToolFields(p.vendor, tools.value[k]) == Success((JStr(items.entries[j].1.tools.entries[m].1.name),
             items.entries[j].1.tools.entries[m].1.description, items.entries[j].1.tools.entries[m].1.inputSchema))
  {
    var (p', tools) := GetTools(p, env);
    var ss := Dict.Values(p'.client.installs.items);
    ProvidedFrom(ss);
    assert Source(ss, Provided(ss)[k]);
    var j, m :| 0 <= j < |ss| && 0 <= m < |ss[j].tools.entries| && Provided(ss)[k] == (ss[j], ss[j].tools.entries[m].1);
    ConvertToolFields(p.vendor, ss[j].tools.entries[m].1);
  }

  // The history.

  /** The message a turn adds for `msg`: Ollama reports a tool result in a `tool` message,
      OpenAI and Claude in a `user` message that names the tool. */
  function Prompt(v: Vendor, msg: string, tool: Option<string>): Message {
    match tool
    case None => Message("user", msg)
    case Some(t) =>
      if v == Ollama then Message("tool", "Result of " + t + ":\n" + msg)
      else Message("user", "Result of " + t + " tool call:\n" + msg)
  }

  /** For OpenAI and Claude, a tool result and a user message with the same text are the same
      history entry. */
  lemma ToolResultLooksTyped(v: Vendor, t: string, msg: string)
    requires v != Ollama
    ensures Prompt(v, msg, Some(t)) == Prompt(v, "Result of " + t + " tool call:\n" + msg, None)
  {
  }

  /** Ollama keeps tool results apart: they alone carry the `tool` role. */
  lemma OllamaToolRole(msg: string, tool: Option<string>)
    ensures Prompt(Ollama, msg, tool).role == "tool" <==> tool.Some?
  {
  }

  /** What `chat` appends before asking the model: the system message when the history is
      empty (never for Claude, which sends the system prompt separately), then the prompt. */
  function Opened(p: Provider, msg: string, tool: Option<string>): (ms: seq<Message>)
    ensures p.messages <= ms
    ensures |ms| == |p.messages| + (if |p.messages| == 0 && p.vendor != Claude then 2 else 1)
    ensures ms[|ms| - 1] == Prompt(p.vendor, msg, tool)
    ensures |p.messages| == 0 && p.vendor != Claude ==> ms[0] == Message("system", p.system)
  {
    var sys := if |p.messages| == 0 && p.vendor != Claude then [Message("system", p.system)] else [];
    p.messages + sys + [Prompt(p.vendor, msg, tool)]
  }

  /** Once a conversation has begun, a turn adds only its prompt. */
  lemma OpenedLater(p: Provider, msg: string, tool: Option<string>)
    requires |p.messages| > 0
    ensures Opened(p, msg, tool) == p.messages + [Prompt(p.vendor, msg, tool)]
  {
    assert p.messages + [] == p.messages;
  }

  /** In a begun history, a tool result's turn answered with "done" adds the result and the
      answer. */
  lemma AnsweredAfterPrompt(p: Provider, text: string, name: string)
    requires |p.messages| > 0
    ensures Answered(p.(messages := Opened(p, text, Some(name))), "done")
      == p.(messages := p.messages + [Prompt(p.vendor, text, Some(name)), Message("assistant", "done")])
  {
    OpenedLater(p, text, Some(name));
    assert p.messages + [Prompt(p.vendor, text, Some(name))] + [Message("assistant", "done")]
      == p.messages + [Prompt(p.vendor, text, Some(name)), Message("assistant", "done")];
  }

  /** After an opened turn, a reported tool error and the model's answer "done" follow it
      in the history. */
  lemma AnsweredAfterReport(q: Provider, op: Provider, text: string, tool: Option<string>, prompt: string, name: string)
    requires op == q.(messages := Opened(q, text, tool))
    ensures Answered(op.(messages := Opened(op, prompt, Some(name))), "done").messages
      == Opened(q, text, tool) + [Prompt(q.vendor, prompt, Some(name)), Message("assistant", "done")]
  {
    OpenedLater(op, prompt, Some(name));
    var history := Opened(q, text, tool);
    assert history + [Prompt(q.vendor, prompt, Some(name))] + [Message("assistant", "done")]
      == history + [Prompt(q.vendor, prompt, Some(name)), Message("assistant", "done")];
  }

  /** A role a vendor's history may hold at a position: the system message only first and
      never for Claude, `tool` messages only for Ollama. */
  predicate RoleOk(v: Vendor, i: nat, role: string) {
    && role in {"system", "user", "tool", "assistant"}
    && (role == "system" ==> i == 0 && v != Claude)
    && (role == "tool" ==> v == Ollama)
  }

  predicate HistoryOk(v: Vendor, ms: seq<Message>) {
    forall i :: 0 <= i < |ms| ==> RoleOk(v, i, ms[i].role)
  }

  lemma OpenedOk(p: Provider, msg: string, tool: Option<string>)
    ensures HistoryOk(p.vendor, p.messages) ==> HistoryOk(p.vendor, Opened(p, msg, tool))
  {
    if HistoryOk(p.vendor, p.messages) {
      var ms := Opened(p, msg, tool);
      forall i | 0 <= i < |ms|
        ensures RoleOk(p.vendor, i, ms[i].role)
      {
        if i < |p.messages| {
          assert ms[i] == p.messages[i];
        }
      }
    }
  }

  /** `{"role": "assistant", "content": content}` appended. */
  function Answered(p: Provider, content: string): (q: Provider)
    ensures q == p.(messages := p.messages + [Message("assistant", content)])
    ensures HistoryOk(p.vendor, p.messages) ==> HistoryOk(q.vendor, q.messages)
  {
    var q := p.(messages := p.messages + [Message("assistant", content)]);
    assert HistoryOk(p.vendor, p.messages) ==> HistoryOk(q.vendor, q.messages) by {
      if HistoryOk(p.vendor, p.messages) {
        forall i | 0 <= i < |q.messages|
          ensures RoleOk(q.vendor, i, q.messages[i].role)
        {
          if i < |p.messages| {
            assert q.messages[i] == p.messages[i];
          }
        }
      }
    }
    q
  }

  /** The prompt a failed tool call is reported back with; the source's line continuation
      leaves 24 spaces before the tool name. */
  function ErrorPrompt(name: string, s: string): string {
    "Encountered an error when calling tool " + Indent + name + ": " + s
  }

  /** The 24 spaces of the continued line. */
  const Indent := "                        "

  /** The suffix of the temporary file an image result is saved to. */
  function ImageSuffix(mimeType: Json): (s: string)
    ensures s == ".png" <==> mimeType == JStr("image/png")
    ensures s != ".png" ==> s == ".jpg"
  {
    if mimeType == JStr("image/png") then ".png" else ".jpg"
  }

  // The replies.

  /** `if isinstance(f, str): f = json.loads(f)`: a tool call's arguments, whichever SDK
      delivered them, are decoded when they are a str and used as they are otherwise. */
  function Arguments(env: Env, f: Json): (r: Result<Json, Error>)
    ensures f.JStr? ==> r == env.parseJson(f.s)
    ensures !f.JStr? ==> r == Success(f)
  {
    if f.JStr? then env.parseJson(f.s) else Success(f)
  }

  datatype ToolCall = ToolCall(name: string, arguments: Json)

  /** An Ollama message or an OpenAI choice's message. */
  datatype Choice = Choice(content: Option<string>, toolCalls: Option<seq<ToolCall>>)

  /** A Claude content block. */
  datatype ReplyBlock = ReplyText(text: string) | ReplyToolUse(name: string, input: Json) | ReplyOther(kind: string)

  /** The assistant messages that keep the text of each of `bs`, in order. */
  function KeptTexts(bs: seq<ReplyBlock>): (ms: seq<Message>)
    requires forall i :: 0 <= i < |bs| ==> bs[i].ReplyText?
    ensures |ms| == |bs|
    ensures forall i :: 0 <= i < |bs| ==> ms[i] == Message("assistant", bs[i].text)
  {
    seq(|bs|, i requires 0 <= i < |bs| => Message("assistant", bs[i].text))
  }

  /** Keeping the first block's text and then the rest keeps them all. */
  lemma KeptTextsStep(p: Provider, bs: seq<ReplyBlock>)
    requires |bs| > 0 && forall i :: 0 <= i < |bs| ==> bs[i].ReplyText?
    ensures Answered(p, bs[0].text).messages + KeptTexts(bs[1..]) == p.messages + KeptTexts(bs)
  {
    assert KeptTexts(bs) == [Message("assistant", bs[0].text)] + KeptTexts(bs[1..]);
  }

  /** A model's answer: Ollama answers one choice, OpenAI a list, Claude a list of blocks. */
  datatype Reply = Choices(choices: seq<Choice>) | Blocks(blocks: seq<ReplyBlock>)

  /** The reply shape a vendor's SDK returns. */
  predicate Fits(v: Vendor, r: Reply) {
    match v
    case Ollama => r.Choices? && |r.choices| == 1
    case OpenAI => r.Choices?
    case Claude => r.Blocks?
  }

  /** The answer a vendor gives with text only. */
  function TextReply(v: Vendor, text: string): (r: Reply)
    ensures Fits(v, r)
  {
    if v == Claude then Blocks([ReplyText(text)]) else Choices([Choice(Some(text), None)])
  }

  /** The model's answers, one per request, in request order; an answer may be the exception
      the vendor's SDK raised. */
  type Script = seq<Result<Reply, Error>>

  /** Raised when a turn asks for more answers than the script holds. */
  const NoReply := Raised("no reply from the model")

  /** `rest` is what is left of `script` after some answers were used. */
  predicate Suffix(rest: Script, script: Script) {
    |rest| <= |script| && rest == script[|script| - |rest|..]
  }

  /** The first two answers of a script, and what is left after the first. */
  lemma TwoAnswers(a: Result<Reply, Error>, b: Result<Reply, Error>, rest: Script)
    ensures ([a, b] + rest)[0] == a
    ensures ([a, b] + rest)[1..] == [b] + rest
  {
  }

  lemma SuffixTrans(a: Script, b: Script, c: Script)
    requires Suffix(a, b) && Suffix(b, c)
    ensures Suffix(a, c)
  {
    assert c[|c| - |b|..][|b| - |a|..] == c[|c| - |a|..];
  }

  /** What every step of a turn keeps: the vendor, prompt and tools; the history only grows
      and keeps its roles in place; answers are used in order. */
  ghost predicate Keeps(p: Provider, script: Script, q: Provider, rest: Script) {
    && q.vendor == p.vendor && q.system == p.system && q.tools == p.tools
    && p.messages <= q.messages
    && (HistoryOk(p.vendor, p.messages) ==> HistoryOk(q.vendor, q.messages))
    && Suffix(rest, script)
  }

  lemma PrefixTrans(a: seq<Message>, b: seq<Message>, c: seq<Message>)
    requires a <= b && b <= c
    ensures a <= c
  {
    assert c[..|b|][..|a|] == c[..|a|];
  }

  lemma KeepsTrans(p: Provider, s: Script, q: Provider, t: Script, u: Provider, w: Script)
    requires Keeps(p, s, q, t) && Keeps(q, t, u, w)
    ensures Keeps(p, s, u, w)
  {
    SuffixTrans(w, t, s);
  }
}
