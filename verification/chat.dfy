/**
 * `mcpx/chat.py`: each provider's `chat` is an async generator of `ChatResponse`s, and
 * `handle_tool_call` is one too. A run of a generator is modelled as the history it leaves,
 * the events it yielded, the model answers it left unused, and the exception it ended with.
 *
 * As written, `handle_tool_call` iterates over the `CallResult` the client returns, which is
 * not iterable, so every tool call ends in the `except` branch: the model is told about a
 * TypeError instead of the tool's output. The `except` branch then yields the inner
 * generator object itself once per event it produces; such an event is `Stream`.
 */
module Chat {
  import opened Wrappers
  import opened Errors
  import opened Json
  import opened Servlets
  import opened Host
  import opened Directory
  import opened ChatCore
  import Calls

  /** `self.client.call(tool=name, input=input)`: what the chat sees of the client. The chat
      is stated for any such function; `ClientCall` is the one the client defines. */
  type Caller = (Client, string, Json) -> (Client, Result<Calls.CallResult, Error>)

  /** The client's `call` with its defaults: a WASI sandbox and no host functions. */
  function ClientCall(env: Env): Caller {
    (c: Client, name: string, input: Json) => Calls.Call(c, env, name, input, true, 0)
  }

  /** `ChatResponse(role, content, kind, tool)`, or the generator object the error branch
      of `handle_tool_call` yields, named by the prompt and tool it was started with. */
  datatype Event =
    | Response(role: string, content: string, kind: string, tool: Option<string>)
    | Stream(prompt: string, name: string)

  datatype Run = Run(p: Provider, events: seq<Event>, rest: Script, raised: Option<Error>)

  /** Running `b` after `a`, which raised nothing: `b`'s state, with `a`'s events first. */
  function Then(a: Run, b: Run): Run {
    Run(b.p, a.events + b.events, b.rest, b.raised)
  }

  /** What `for c in res` raises on a `CallResult`. */
  const NotIterable := TypeError("'CallResult' object is not iterable")

  /** The exception `handle_tool_call` reports for a call: the client's own, or the failed
      iteration over its result. */
  function CallError(p: Provider, call: Caller, name: string, input: Json): Error {
    var res := call(p.client, name, input).1;
    if res.Failure? then res.error else NotIterable
  }

  /** `chat(msg, tool)`: open the turn, echo a tool result, ask the model, handle its
      answer. */
  function Chat(p: Provider, env: Env, call: Caller, script: Script, msg: string, tool: Option<string>): (r: Run)
    ensures Keeps(p, script, r.p, r.rest)
    ensures Opened(p, msg, tool) <= r.p.messages
    ensures tool.Some? ==> |r.events| > 0 && r.events[0] == Response("tool", msg, "text", tool)
    ensures |script| == 0 ==> r.raised == Some(NoReply) && r.p.messages == Opened(p, msg, tool)
    ensures |script| > 0 && script[0].Failure? ==>
      r.raised == Some(script[0].error) && r.rest == script[1..] && r.p.messages == Opened(p, msg, tool)
    decreases |script|, 0, 0
  {
    var q := p.(messages := Opened(p, msg, tool));
    OpenedOk(p, msg, tool);
    var echo := if tool.Some? then [Response("tool", msg, "text", tool)] else [];
    if |script| == 0 then Run(q, echo, script, Some(NoReply))
    else
      match script[0]
      case Failure(e) => Run(q, echo, script[1..], Some(e))
      case Success(reply) =>
        var r := Turn(q, env, call, script[1..], reply);
        KeepsTrans(p, script, q, script[1..], r.p, r.rest);
        Then(Run(q, echo, script[1..], None), r)
  }

  function Turn(p: Provider, env: Env, call: Caller, script: Script, reply: Reply): (r: Run)
    ensures Keeps(p, script, r.p, r.rest)
    decreases |script|, 5, 0
  {
    match reply
    case Choices(cs) => EachChoice(p, env, call, script, cs)
    case Blocks(bs) => EachBlock(p, env, call, script, bs)
  }

  /** `for response in r.choices` (Ollama's single message is one choice): a choice that
      raises ends the loop with its exception. */
  function EachChoice(p: Provider, env: Env, call: Caller, script: Script, cs: seq<Choice>): (r: Run)
    ensures Keeps(p, script, r.p, r.rest)
    ensures |cs| > 0 ==> var h := ChoiceTurn(p, env, call, script, cs[0]);
      h.raised.Some? || |cs| == 1 ==> r == h
    decreases |script|, 4, |cs|
  {
    if |cs| == 0 then Run(p, [], script, None)
    else
      var r := ChoiceTurn(p, env, call, script, cs[0]);
      if r.raised.Some? then r
      else
        var r2 := EachChoice(r.p, env, call, r.rest, cs[1..]);
        KeepsTrans(p, script, r.p, r.rest, r2.p, r2.rest);
        Then(r, r2)
  }

  /** One choice: its tool calls first, then its text, if any, is kept and yielded. A call
      that raises ends the choice before its text is kept. */
  function ChoiceTurn(p: Provider, env: Env, call: Caller, script: Script, c: Choice): (r: Run)
    ensures Keeps(p, script, r.p, r.rest)
    ensures c.toolCalls.None? && c.content.Some? && c.content.value != "" ==>
      r == Run(Answered(p, c.content.value), [Response("assistant", c.content.value, "text", None)], script, None)
    ensures c.toolCalls.None? && (c.content.None? || c.content.value == "") ==> r == Run(p, [], script, None)
    ensures c.toolCalls.Some? ==> var l := CallsLoop(p, env, call, script, c.toolCalls.value);
      && (l.raised.Some? ==> r == l)
      && (l.raised.None? ==> l.events <= r.events && l.p.messages <= r.p.messages && r.rest == l.rest)
    ensures r.raised.None? && c.content.Some? && c.content.value != "" ==>
      && |r.p.messages| > 0 && r.p.messages[|r.p.messages| - 1] == Message("assistant", c.content.value)
      && |r.events| > 0 && r.events[|r.events| - 1] == Response("assistant", c.content.value, "text", None)
    decreases |script|, 3, 0
  {
    var r := if c.toolCalls.Some? then CallsLoop(p, env, call, script, c.toolCalls.value) else Run(p, [], script, None);
    if r.raised.Some? then r
    else if c.content.Some? && c.content.value != "" then
      var q := Answered(r.p, c.content.value);
      Then(r, Run(q, [Response("assistant", c.content.value, "text", None)], r.rest, None))
    else r
  }

  /** `for call in tool_calls: async for res in handle_tool_call(...): yield res`: a call that
      raises ends the loop with its exception. */
  function CallsLoop(p: Provider, env: Env, call: Caller, script: Script, calls: seq<ToolCall>): (r: Run)
    ensures Keeps(p, script, r.p, r.rest)
    ensures |calls| > 0 ==> var h := Handle(p, env, call, script, calls[0].name, calls[0].arguments);
      h.raised.Some? || |calls| == 1 ==> r == h
    decreases |script|, 2, |calls|
  {
    if |calls| == 0 then Run(p, [], script, None)
    else
      var r := Handle(p, env, call, script, calls[0].name, calls[0].arguments);
      if r.raised.Some? then r
      else
        var r2 := CallsLoop(r.p, env, call, r.rest, calls[1..]);
        KeepsTrans(p, script, r.p, r.rest, r2.p, r2.rest);
        Then(r, r2)
  }

  /** Claude's `for block in res.content`: text is kept and yielded, a tool use is handled,
      anything else skipped; a tool use that raises ends the loop with its exception. */
  function EachBlock(p: Provider, env: Env, call: Caller, script: Script, bs: seq<ReplyBlock>): (r: Run)
    ensures Keeps(p, script, r.p, r.rest)
    ensures |bs| == 1 && bs[0].ReplyText? ==>
      r == Run(Answered(p, bs[0].text), [Response("assistant", bs[0].text, "text", None)], script, None)
    ensures |bs| == 1 && bs[0].ReplyOther? ==> r == Run(p, [], script, None)
    ensures |bs| > 0 && bs[0].ReplyToolUse? ==> var h := Handle(p, env, call, script, bs[0].name, bs[0].input);
      h.raised.Some? || |bs| == 1 ==> r == h
    decreases |script|, 4, |bs|
  {
    if |bs| == 0 then Run(p, [], script, None)
    else
      var r := match bs[0]
        case ReplyText(t) => Run(Answered(p, t), [Response("assistant", t, "text", None)], script, None)
        case ReplyToolUse(n, input) => Handle(p, env, call, script, n, input)
        case ReplyOther(_) => Run(p, [], script, None);
      if r.raised.Some? then r
      else
        var r2 := EachBlock(r.p, env, call, r.rest, bs[1..]);
        KeepsTrans(p, script, r.p, r.rest, r2.p, r2.rest);
        Then(r, r2)
  }

  /** `handle_tool_call(name, f, provider)`: decode string arguments (outside the `try`),
      call the tool through the client, and, since that always raises, report the exception
      to the model in a nested `chat`, yielding that generator once per event it makes. */
  function Handle(p: Provider, env: Env, call: Caller, script: Script, name: string, f: Json): (r: Run)
    ensures Keeps(p, script, r.p, r.rest)
    ensures Arguments(env, f).Failure? ==> r == Run(p, [], script, Some(Arguments(env, f).error))
    ensures forall i :: 0 <= i < |r.events| ==> r.events[i].Stream? && r.events[i].name == name
    decreases |script|, 1, 0
  {
    match Arguments(env, f)
    case Failure(e) => Run(p, [], script, Some(e))
    case Success(input) =>
      var c' := call(p.client, name, input).0;
      var prompt := ErrorPrompt(name, Text(CallError(p, call, name, input)));
      var r := Chat(p.(client := c'), env, call, script, prompt, Some(name));
      Run(r.p, seq(|r.events|, _ => Stream(prompt, name)), r.rest, r.raised)
  }

  /** Choices are handled in order: the choices of `xs + ys` are those of `xs`, then, unless
      one of them raised, those of `ys` from where `xs` left off. */
  lemma {:induction false} EachChoiceSeq(p: Provider, env: Env, call: Caller, script: Script, xs: seq<Choice>, ys: seq<Choice>)
    ensures var a := EachChoice(p, env, call, script, xs);
      EachChoice(p, env, call, script, xs + ys)
        == if a.raised.Some? then a else Then(a, EachChoice(a.p, env, call, a.rest, ys))
    decreases |xs|
  {
    if |xs| == 0 {
      assert xs + ys == ys;
      ThenNothing(p, script, EachChoice(p, env, call, script, ys));
    } else {
      assert xs + ys == [xs[0]] + (xs[1..] + ys) && xs == [xs[0]] + xs[1..];
      EachChoiceCons(p, env, call, script, xs[0], xs[1..] + ys);
      EachChoiceCons(p, env, call, script, xs[0], xs[1..]);
      var h := ChoiceTurn(p, env, call, script, xs[0]);
      if h.raised.None? {
        EachChoiceSeq(h.p, env, call, h.rest, xs[1..], ys);
        var a := EachChoice(h.p, env, call, h.rest, xs[1..]);
        ThenAssoc(h, a, EachChoice(a.p, env, call, a.rest, ys));
      }
    }
  }

  /** One step of the choice loop. */
  lemma EachChoiceCons(p: Provider, env: Env, call: Caller, script: Script, x: Choice, xs: seq<Choice>)
    ensures var h := ChoiceTurn(p, env, call, script, x);
      EachChoice(p, env, call, script, [x] + xs)
        == if h.raised.Some? then h else Then(h, EachChoice(h.p, env, call, h.rest, xs))
  {
    assert ([x] + xs)[0] == x && ([x] + xs)[1..] == xs;
  }

  /** Tool calls are handled in order: the calls of `xs + ys` are those of `xs`, then, unless
      one of them raised, those of `ys` from where `xs` left off. */
  lemma {:induction false} CallsLoopSeq(p: Provider, env: Env, call: Caller, script: Script, xs: seq<ToolCall>, ys: seq<ToolCall>)
    ensures var a := CallsLoop(p, env, call, script, xs);
      CallsLoop(p, env, call, script, xs + ys)
        == if a.raised.Some? then a else Then(a, CallsLoop(a.p, env, call, a.rest, ys))
    decreases |xs|
  {
    if |xs| == 0 {
      assert xs + ys == ys;
      ThenNothing(p, script, CallsLoop(p, env, call, script, ys));
    } else {
      assert xs + ys == [xs[0]] + (xs[1..] + ys) && xs == [xs[0]] + xs[1..];
      CallsLoopCons(p, env, call, script, xs[0], xs[1..] + ys);
      CallsLoopCons(p, env, call, script, xs[0], xs[1..]);
      var h := Handle(p, env, call, script, xs[0].name, xs[0].arguments);
      if h.raised.None? {
        CallsLoopSeq(h.p, env, call, h.rest, xs[1..], ys);
        var a := CallsLoop(h.p, env, call, h.rest, xs[1..]);
        ThenAssoc(h, a, CallsLoop(a.p, env, call, a.rest, ys));
      }
    }
  }

  /** One step of the tool-call loop. */
  lemma CallsLoopCons(p: Provider, env: Env, call: Caller, script: Script, x: ToolCall, xs: seq<ToolCall>)
    ensures var h := Handle(p, env, call, script, x.name, x.arguments);
      CallsLoop(p, env, call, script, [x] + xs)
        == if h.raised.Some? then h else Then(h, CallsLoop(h.p, env, call, h.rest, xs))
  {
    assert ([x] + xs)[0] == x && ([x] + xs)[1..] == xs;
  }

  /** Running after nothing happened is just running. */
  lemma ThenNothing(p: Provider, script: Script, b: Run)
    ensures Then(Run(p, [], script, None), b) == b
  {
    assert [] + b.events == b.events;
  }

  lemma ThenAssoc(a: Run, b: Run, c: Run)
    ensures Then(a, Then(b, c)) == Then(Then(a, b), c)
  {
    assert a.events + (b.events + c.events) == (a.events + b.events) + c.events;
  }

  /** Claude's blocks are handled in order: the blocks of `xs + ys` are those of `xs`, then,
      unless a tool use among them raised, those of `ys` from where `xs` left off. */
  lemma {:induction false} EachBlockSeq(p: Provider, env: Env, call: Caller, script: Script, xs: seq<ReplyBlock>, ys: seq<ReplyBlock>)
    ensures var a := EachBlock(p, env, call, script, xs);
      EachBlock(p, env, call, script, xs + ys)
        == if a.raised.Some? then a else Then(a, EachBlock(a.p, env, call, a.rest, ys))
    decreases |xs|
  {
    if |xs| == 0 {
      assert xs + ys == ys;
      ThenNothing(p, script, EachBlock(p, env, call, script, ys));
    } else {
      assert xs + ys == [xs[0]] + (xs[1..] + ys) && xs == [xs[0]] + xs[1..];
      EachBlockCons(p, env, call, script, xs[0], xs[1..] + ys);
      EachBlockCons(p, env, call, script, xs[0], xs[1..]);
      var h := EachBlock(p, env, call, script, [xs[0]]);
      if h.raised.None? {
        EachBlockSeq(h.p, env, call, h.rest, xs[1..], ys);
        var a := EachBlock(h.p, env, call, h.rest, xs[1..]);
        ThenAssoc(h, a, EachBlock(a.p, env, call, a.rest, ys));
      }
    }
  }

  /** One step of the block loop: the first block alone, then the others. */
  lemma EachBlockCons(p: Provider, env: Env, call: Caller, script: Script, x: ReplyBlock, xs: seq<ReplyBlock>)
    ensures var h := EachBlock(p, env, call, script, [x]);
      EachBlock(p, env, call, script, [x] + xs)
        == if h.raised.Some? then h else Then(h, EachBlock(h.p, env, call, h.rest, xs))
  {
    assert ([x] + xs)[0] == x && ([x] + xs)[1..] == xs && [x][1..] == [];
    var h := EachBlock(p, env, call, script, [x]);
    if h.raised.None? {
      ThenNothing(h.p, h.rest, Run(h.p, [], h.rest, None));
    }
  }

  /** Text, a tool use and more text are handled strictly in the order Claude wrote them: the
      first text is kept and yielded, then the call is handled from there, then the second
      text is kept and yielded. */
  lemma MixedBlocksInOrder(p: Provider, env: Env, call: Caller, script: Script, a: string, name: string, f: Json, b: string)
    requires Handle(Answered(p, a), env, call, script, name, f).raised.None?
    ensures var h := Handle(Answered(p, a), env, call, script, name, f);
      EachBlock(p, env, call, script, [ReplyText(a), ReplyToolUse(name, f), ReplyText(b)])
        == Run(Answered(h.p, b), [Response("assistant", a, "text", None)] + h.events + [Response("assistant", b, "text", None)], h.rest, None)
  {
    var pa := Answered(p, a);
    var h := Handle(pa, env, call, script, name, f);
    var first := Run(pa, [Response("assistant", a, "text", None)], script, None);
    var last := Run(Answered(h.p, b), [Response("assistant", b, "text", None)], h.rest, None);
    assert [ReplyText(a), ReplyToolUse(name, f), ReplyText(b)] == [ReplyText(a)] + [ReplyToolUse(name, f), ReplyText(b)];
    assert [ReplyToolUse(name, f), ReplyText(b)] == [ReplyToolUse(name, f)] + [ReplyText(b)];
    EachBlockCons(p, env, call, script, ReplyText(a), [ReplyToolUse(name, f), ReplyText(b)]);
    EachBlockCons(pa, env, call, script, ReplyToolUse(name, f), [ReplyText(b)]);
    assert EachBlock(pa, env, call, script, [ReplyToolUse(name, f), ReplyText(b)]) == Then(h, last);
    ThenAssoc(first, h, last);
  }

  /** Every handled call, whether the client raised or not, is reported to the model as an
      error: the prompt naming it is the next thing in the history. */
  lemma ErrorReported(p: Provider, env: Env, call: Caller, script: Script, name: string, f: Json, input: Json)
    requires Arguments(env, f) == Success(input)
    ensures Opened(p, ErrorPrompt(name, Text(CallError(p, call, name, input))), Some(name))
      <= Handle(p, env, call, script, name, f).p.messages
  {
    var c' := call(p.client, name, input).0;
    var r := Chat(p.(client := c'), env, call, script, ErrorPrompt(name, Text(CallError(p, call, name, input))), Some(name));
    assert Handle(p, env, call, script, name, f).p == r.p;
  }

  /** A turn the model answers with text only keeps and yields that text, after the opened
      history. */
  lemma PlainAnswer(p: Provider, env: Env, call: Caller, msg: string, text: string, rest: Script)
    requires text != ""
    ensures Chat(p, env, call, [Success(TextReply(p.vendor, text))] + rest, msg, None)
      == Run(Answered(p.(messages := Opened(p, msg, None)), text), [Response("assistant", text, "text", None)], rest, None)
  {
    var script := [Success(TextReply(p.vendor, text))] + rest;
    assert script[0] == Success(TextReply(p.vendor, text)) && script[1..] == rest;
    var q := p.(messages := Opened(p, msg, None));
    var a := Answered(q, text);
    var said := Run(a, [Response("assistant", text, "text", None)], rest, None);
    if p.vendor == Claude {
      assert [ReplyText(text)][1..] == [];
      assert EachBlock(a, env, call, rest, []) == Run(a, [], rest, None);
      assert EachBlock(q, env, call, rest, [ReplyText(text)]) == said;
      assert Turn(q, env, call, rest, TextReply(p.vendor, text)) == said;
    } else {
      assert [Choice(Some(text), None)][1..] == [];
      assert EachChoice(a, env, call, rest, []) == Run(a, [], rest, None);
      assert EachChoice(q, env, call, rest, [Choice(Some(text), None)]) == said;
      assert Turn(q, env, call, rest, TextReply(p.vendor, text)) == said;
    }
  }

  /** A tool call whose call succeeds is reported to the model as the TypeError of iterating
      over the call result, never as the tool's output; the nested turn's two events reach the
      caller as the nested generator object, twice. */
  lemma ToolOutputNeverReachesModel(p: Provider, env: Env, call: Caller, msg: string, name: string, f: Json, input: Json, rest: Script)
    requires p.vendor != Claude
    requires Arguments(env, f) == Success(input)
    requires call(p.client, name, input).1.Success?
    ensures var ask := Success(Choices([Choice(None, Some([ToolCall(name, f)]))]));
      var done := Success(TextReply(p.vendor, "done"));
      var prompt := ErrorPrompt(name, "'CallResult' object is not iterable");
      var r := Chat(p, env, call, [ask, done] + rest, msg, None);
      && r.p.messages == Opened(p, msg, None) + [Prompt(p.vendor, prompt, Some(name)), Message("assistant", "done")]
      && r.events == [Stream(prompt, name), Stream(prompt, name)]
      && r.rest == rest && r.raised.None?
  {
    var tc := ToolCall(name, f);
    var choice := Choice(None, Some([tc]));
    var ask := Success(Choices([choice]));
    var done := Success(TextReply(p.vendor, "done"));
    TwoAnswers(ask, done, rest);
    var q := p.(messages := Opened(p, msg, None));
    HandledNotIterable(q, env, call, name, f, input, rest);
    OneCall(q, env, call, [done] + rest, tc);
    var q' := q.(client := call(q.client, name, input).0);
    AnsweredAfterReport(p.(client := q'.client), q', msg, None, ErrorPrompt(name, "'CallResult' object is not iterable"), name);
  }

  /** A choice without text that asks for one tool call is the handling of that call, when
      the handling leaves no answers behind and raises nothing. */
  lemma OneCall(q: Provider, env: Env, call: Caller, script: Script, tc: ToolCall)
    requires Handle(q, env, call, script, tc.name, tc.arguments).raised.None?
    requires Handle(q, env, call, script, tc.name, tc.arguments).rest == script[1..]
    ensures EachChoice(q, env, call, script, [Choice(None, Some([tc]))]) == Handle(q, env, call, script, tc.name, tc.arguments)
  {
    var choice := Choice(None, Some([tc]));
    var handled := Handle(q, env, call, script, tc.name, tc.arguments);
    assert CallsLoop(handled.p, env, call, handled.rest, []) == Run(handled.p, [], handled.rest, None);
    assert CallsLoop(q, env, call, script, [tc]) == handled;
    assert ChoiceTurn(q, env, call, script, choice) == handled;
    assert EachChoice(handled.p, env, call, handled.rest, []) == Run(handled.p, [], handled.rest, None);
  }

  /** The handling of a successful call inside `ToolOutputNeverReachesModel`: the TypeError
      goes to the model, which answers "done", and the nested turn's two events come back as
      two copies of the generator object. */
  lemma HandledNotIterable(q: Provider, env: Env, call: Caller, name: string, f: Json, input: Json, rest: Script)
    requires q.vendor != Claude
    requires Arguments(env, f) == Success(input)
    requires call(q.client, name, input).1.Success?
    ensures var prompt := ErrorPrompt(name, "'CallResult' object is not iterable");
      var q' := q.(client := call(q.client, name, input).0);
      Handle(q, env, call, [Success(TextReply(q.vendor, "done"))] + rest, name, f)
        == Run(Answered(q'.(messages := Opened(q', prompt, Some(name))), "done"), [Stream(prompt, name), Stream(prompt, name)], rest, None)
  {
    var prompt := ErrorPrompt(name, "'CallResult' object is not iterable");
    var q' := q.(client := call(q.client, name, input).0);
    assert CallError(q, call, name, input) == NotIterable;
    PlainTurn(q', env, call, prompt, Some(name), rest);
  }

  /** The nested turn of a tool result the model answers with "done". */
  lemma PlainTurn(p: Provider, env: Env, call: Caller, msg: string, tool: Option<string>, rest: Script)
    requires p.vendor != Claude
    ensures var echo := if tool.Some? then [Response("tool", msg, "text", tool)] else [];
      Chat(p, env, call, [Success(TextReply(p.vendor, "done"))] + rest, msg, tool)
        == Run(Answered(p.(messages := Opened(p, msg, tool)), "done"), echo + [Response("assistant", "done", "text", None)], rest, None)
  {
    var script := [Success(TextReply(p.vendor, "done"))] + rest;
    assert script[0] == Success(TextReply(p.vendor, "done")) && script[1..] == rest;
    var q := p.(messages := Opened(p, msg, tool));
    var a := Answered(q, "done");
    var said := Run(a, [Response("assistant", "done", "text", None)], rest, None);
    assert [Choice(Some("done"), None)][1..] == [];
    assert EachChoice(a, env, call, rest, []) == Run(a, [], rest, None);
    assert EachChoice(q, env, call, rest, [Choice(Some("done"), None)]) == said;
    assert Turn(q, env, call, rest, TextReply(p.vendor, "done")) == said;
  }

  /** The events yielding the text of each of `bs`, in order. */
  function TextEvents(bs: seq<ReplyBlock>): (r: seq<Event>)
    requires forall i :: 0 <= i < |bs| ==> bs[i].ReplyText?
    ensures |r| == |bs|
    ensures forall i :: 0 <= i < |bs| ==> r[i] == Response("assistant", bs[i].text, "text", None)
  {
    seq(|bs|, i requires 0 <= i < |bs| => Response("assistant", bs[i].text, "text", None))
  }

  /** Yielding the first block's text and then the rest yields them all. */
  lemma TextEventsStep(bs: seq<ReplyBlock>)
    requires |bs| > 0 && forall i :: 0 <= i < |bs| ==> bs[i].ReplyText?
    ensures [Response("assistant", bs[0].text, "text", None)] + TextEvents(bs[1..]) == TextEvents(bs)
  {
  }

  /** Claude's text blocks are kept in the history and yielded in the order the model wrote
      them. */
  lemma {:induction false} TextBlocksInOrder(p: Provider, env: Env, call: Caller, script: Script, bs: seq<ReplyBlock>)
    requires forall i :: 0 <= i < |bs| ==> bs[i].ReplyText?
    ensures EachBlock(p, env, call, script, bs) == Run(p.(messages := p.messages + KeptTexts(bs)), TextEvents(bs), script, None)
    decreases |bs|
  {
    if |bs| > 0 {
      var t := bs[0].text;
      var q := Answered(p, t);
      TextBlocksInOrder(q, env, call, script, bs[1..]);
      KeptTextsStep(p, bs);
      TextEventsStep(bs);
    } else {
      assert p.messages + [] == p.messages;
    }
  }
}
