/**
 * `mcpx_client/chat.py`: each provider's `chat` is a coroutine that prints what the model
 * says, and `handle_tool_call` feeds every text result of a tool back into a nested `chat`.
 * A run is modelled as the history it leaves, what it printed (the assistant's text, the
 * tool-call notices and the saved images), the unused model answers, and the exception it
 * ended with. Unlike the generator variant, the model's text is kept before its tool calls
 * are handled, and a failure anywhere inside the `try` — the client call, decoding a text
 * result, or the nested `chat` itself — is reported to the model in one more `chat`.
 */
module LegacyChat {
  import opened Wrappers
  import opened Errors
  import opened Json
  import opened Servlets
  import opened Host
  import opened Directory
  import opened ChatCore
  import LegacyCalls

  /** `self.client.call(tool=name, input=input)`: what the chat sees of the client. The chat
      is stated for any such function; `ClientCall` is the one the client defines. */
  type Caller = (Client, string, Json) -> (Client, Result<seq<Content>, Error>)

  /** The client's `call` with its defaults: a WASI sandbox and no host functions. */
  function ClientCall(env: Env): Caller {
    (c: Client, name: string, input: Json) => LegacyCalls.Call(c, env, name, input, true, 0)
  }

  /** `print(">>", content)`, `print(">>", f"Calling tool: {name}")` and
      `print(">>", f"Image saved to {tmp.name}")` after writing `data` to a temporary file
      with the given suffix. */
  datatype Output = Said(text: string) | CallingTool(name: string) | ImageSaved(suffix: string, data: Bytes)

  /** The message of the TypeError `tmp.write(None)` raises for an image without data. */
  const WriteNoneError := "a bytes-like object is required, not 'NoneType'"

  datatype Run = Run(p: Provider, outputs: seq<Output>, rest: Script, raised: Option<Error>)

  /** Running `b` after `a`, which raised nothing: `b`'s state, with `a`'s output first. */
  function Then(a: Run, b: Run): Run {
    Run(b.p, a.outputs + b.outputs, b.rest, b.raised)
  }

  /** `chat(msg, tool)`: open the turn, ask the model, handle its answer. */
  function Chat(p: Provider, env: Env, call: Caller, script: Script, msg: string, tool: Option<string>): (r: Run)
    ensures Keeps(p, script, r.p, r.rest)
    ensures Opened(p, msg, tool) <= r.p.messages
    ensures |script| == 0 ==> r == Run(p.(messages := Opened(p, msg, tool)), [], script, Some(NoReply))
    ensures |script| > 0 && script[0].Failure? ==>
      r == Run(p.(messages := Opened(p, msg, tool)), [], script[1..], Some(script[0].error))
    decreases |script|, 0, 0
  {
    var q := p.(messages := Opened(p, msg, tool));
    OpenedOk(p, msg, tool);
    if |script| == 0 then Run(q, [], script, Some(NoReply))
    else
      match script[0]
      case Failure(e) => Run(q, [], script[1..], Some(e))
      case Success(reply) =>
        var r := Turn(q, env, call, script[1..], reply);
        KeepsTrans(p, script, q, script[1..], r.p, r.rest);
        r
  }

  function Turn(p: Provider, env: Env, call: Caller, script: Script, reply: Reply): (r: Run)
    ensures Keeps(p, script, r.p, r.rest)
    decreases |script|, 6, 0
  {
    match reply
    case Choices(cs) => EachChoice(p, env, call, script, cs)
    case Blocks(bs) => EachBlock(p, env, call, script, bs)
  }

  /** `for response in r.choices`: a choice that raises ends the loop with its exception. */
  function EachChoice(p: Provider, env: Env, call: Caller, script: Script, cs: seq<Choice>): (r: Run)
    ensures Keeps(p, script, r.p, r.rest)
    ensures |cs| > 0 ==> var h := ChoiceTurn(p, env, call, script, cs[0]);
      h.raised.Some? || |cs| == 1 ==> r == h
    decreases |script|, 5, |cs|
  {
    if |cs| == 0 then Run(p, [], script, None)
    else
      var r := ChoiceTurn(p, env, call, script, cs[0]);
      if r.raised.Some? then r
      else
        var r2 := EachChoice(r.p, env, call, r.rest, cs[1..]);
        KeepsTrans(p, script, r.p, r.rest, r2.p, r2.rest);
        Then(r, r2)
  }

  /** One choice: its text, if any, is printed and kept first; then its tool calls. */
  function ChoiceTurn(p: Provider, env: Env, call: Caller, script: Script, c: Choice): (r: Run)
    ensures Keeps(p, script, r.p, r.rest)
    ensures c.content.Some? && c.content.value != "" ==>
      && |r.p.messages| > |p.messages|
      && r.p.messages[|p.messages|] == Message("assistant", c.content.value)
      && |r.outputs| > 0 && r.outputs[0] == Said(c.content.value)
    decreases |script|, 4, 0
  {
    var said := c.content.Some? && c.content.value != "";
    var q := if said then Answered(p, c.content.value) else p;
    var out := if said then [Said(c.content.value)] else [];
    if c.toolCalls.None? then Run(q, out, script, None)
    else
      var r := CallsLoop(q, env, call, script, c.toolCalls.value);
      KeepsTrans(p, script, q, script, r.p, r.rest);
      Then(Run(q, out, script, None), r)
  }

  /** `for call in tool_calls: await handle_tool_call(...)`: a call that raises ends the loop
      with its exception. */
  function CallsLoop(p: Provider, env: Env, call: Caller, script: Script, calls: seq<ToolCall>): (r: Run)
    ensures Keeps(p, script, r.p, r.rest)
    ensures |calls| > 0 ==> var h := Handle(p, env, call, script, calls[0].name, calls[0].arguments);
      h.raised.Some? || |calls| == 1 ==> r == h
    decreases |script|, 3, |calls|
  {
    if |calls| == 0 then Run(p, [], script, None)
    else
      var r := Handle(p, env, call, script, calls[0].name, calls[0].arguments);
      if r.raised.Some? then r
      else
        var r2 := CallsLoop(r.p, env, call, r.rest, calls[1..]);
        KeepsTrans(p, script, r.p, r.rest, r2.p, r2.rest);
        Then(r, r2)
  }

  /** Claude's blocks: text is printed and kept, a tool use handled, anything else skipped; a
      tool use that raises ends the loop with its exception. */
  function EachBlock(p: Provider, env: Env, call: Caller, script: Script, bs: seq<ReplyBlock>): (r: Run)
    ensures Keeps(p, script, r.p, r.rest)
    ensures |bs| == 1 && bs[0].ReplyText? ==> r == Run(Answered(p, bs[0].text), [Said(bs[0].text)], script, None)
    ensures |bs| == 1 && bs[0].ReplyOther? ==> r == Run(p, [], script, None)
    ensures |bs| > 0 && bs[0].ReplyToolUse? ==> var h := Handle(p, env, call, script, bs[0].name, bs[0].input);
      h.raised.Some? || |bs| == 1 ==> r == h
    decreases |script|, 5, |bs|
  {
    if |bs| == 0 then Run(p, [], script, None)
    else
      var r := BlockTurn(p, env, call, script, bs[0]);
      if r.raised.Some? then r
      else
        var r2 := EachBlock(r.p, env, call, r.rest, bs[1..]);
        KeepsTrans(p, script, r.p, r.rest, r2.p, r2.rest);
        Then(r, r2)
  }

  /** One block of Claude's answer. */
  function BlockTurn(p: Provider, env: Env, call: Caller, script: Script, b: ReplyBlock): (r: Run)
    ensures Keeps(p, script, r.p, r.rest)
    ensures b.ReplyText? ==> r == Run(Answered(p, b.text), [Said(b.text)], script, None)
    ensures b.ReplyToolUse? ==> r == Handle(p, env, call, script, b.name, b.input)
    ensures b.ReplyOther? ==> r == Run(p, [], script, None)
    decreases |script|, 4, 0
  {
    match b
    case ReplyText(t) => Run(Answered(p, t), [Said(t)], script, None)
    case ReplyToolUse(n, input) => Handle(p, env, call, script, n, input)
    case ReplyOther(_) => Run(p, [], script, None)
  }

  /** `handle_tool_call`: decode string arguments and announce the call (outside the `try`);
      call the tool and feed its results back; on any exception, tell the model about it in
      one more `chat`, whose own exception propagates. */
  function Handle(p: Provider, env: Env, call: Caller, script: Script, name: string, f: Json): (r: Run)
    ensures Keeps(p, script, r.p, r.rest)
    ensures Arguments(env, f).Failure? ==> r == Run(p, [], script, Some(Arguments(env, f).error))
    ensures Arguments(env, f).Success? ==> |r.outputs| > 0 && r.outputs[0] == CallingTool(name)
    decreases |script|, 2, 0
  {
    match Arguments(env, f)
    case Failure(e) => Run(p, [], script, Some(e))
    case Success(input) =>
      var (c', res) := call(p.client, name, input);
      var q := p.(client := c');
      var r := if res.Failure? then Run(q, [], script, Some(res.error)) else Feed(q, env, call, script, name, res.value);
      if r.raised.None? then Run(r.p, [CallingTool(name)] + r.outputs, r.rest, None)
      else
        var r2 := Chat(r.p, env, call, r.rest, ErrorPrompt(name, Text(r.raised.value)), Some(name));
        KeepsTrans(p, script, r.p, r.rest, r2.p, r2.rest);
        Run(r2.p, [CallingTool(name)] + r.outputs + r2.outputs, r2.rest, r2.raised)
  }

  lemma ThenNothing(p: Provider, script: Script, b: Run)
    ensures Then(Run(p, [], script, None), b) == b
  {
    assert [] + b.outputs == b.outputs;
  }

  lemma ThenAssoc(a: Run, b: Run, c: Run)
    ensures Then(a, Then(b, c)) == Then(Then(a, b), c)
  {
    assert a.outputs + (b.outputs + c.outputs) == (a.outputs + b.outputs) + c.outputs;
  }

  /** Choices are handled in order: the choices of `xs + ys` are those of `xs`, then, unless
      one of them raised, those of `ys` from where `xs` left off. */
  lemma {:induction false} EachChoiceSeq(p: Provider, env: Env, call: Caller, script: Script, xs: seq<Choice>, ys: seq<Choice>)
    ensures var a := EachChoice(p, env, call, script, xs);
      EachChoice(p, env, call, script, xs + ys)
        == if a.raised.Some? then a else Then(a, EachChoice(a.p, env, call, a.rest, ys))
    decreases |xs|
  {
    if |xs| == 0 {
      assert xs + ys == ys;
      ThenNothing(p, script, EachChoice(p, env, call, script, ys));
    } else {
      assert xs + ys == [xs[0]] + (xs[1..] + ys) && xs == [xs[0]] + xs[1..];
      EachChoiceCons(p, env, call, script, xs[0], xs[1..] + ys);
      EachChoiceCons(p, env, call, script, xs[0], xs[1..]);
      var h := ChoiceTurn(p, env, call, script, xs[0]);
      if h.raised.None? {
        EachChoiceSeq(h.p, env, call, h.rest, xs[1..], ys);
        var a := EachChoice(h.p, env, call, h.rest, xs[1..]);
        ThenAssoc(h, a, EachChoice(a.p, env, call, a.rest, ys));
      }
    }
  }

  /** One step of the choice loop. */
  lemma EachChoiceCons(p: Provider, env: Env, call: Caller, script: Script, x: Choice, xs: seq<Choice>)
    ensures var h := ChoiceTurn(p, env, call, script, x);
      EachChoice(p, env, call, script, [x] + xs)
        == if h.raised.Some? then h else Then(h, EachChoice(h.p, env, call, h.rest, xs))
  {
    assert ([x] + xs)[0] == x && ([x] + xs)[1..] == xs;
  }

  /** Tool calls are dispatched in order: the calls of `xs + ys` are those of `xs`, then,
      unless one of them raised, those of `ys` from where `xs` left off. */
  lemma {:induction false} CallsLoopSeq(p: Provider, env: Env, call: Caller, script: Script, xs: seq<ToolCall>, ys: seq<ToolCall>)
    ensures var a := CallsLoop(p, env, call, script, xs);
      CallsLoop(p, env, call, script, xs + ys)
        == if a.raised.Some? then a else Then(a, CallsLoop(a.p, env, call, a.rest, ys))
    decreases |xs|
  {
    if |xs| == 0 {
      assert xs + ys == ys;
      ThenNothing(p, script, CallsLoop(p, env, call, script, ys));
    } else {
      assert xs + ys == [xs[0]] + (xs[1..] + ys) && xs == [xs[0]] + xs[1..];
      CallsLoopCons(p, env, call, script, xs[0], xs[1..] + ys);
      CallsLoopCons(p, env, call, script, xs[0], xs[1..]);
      var h := Handle(p, env, call, script, xs[0].name, xs[0].arguments);
      if h.raised.None? {
        CallsLoopSeq(h.p, env, call, h.rest, xs[1..], ys);
        var a := CallsLoop(h.p, env, call, h.rest, xs[1..]);
        ThenAssoc(h, a, CallsLoop(a.p, env, call, a.rest, ys));
      }
    }
  }

  /** One step of the tool-call loop. */
  lemma CallsLoopCons(p: Provider, env: Env, call: Caller, script: Script, x: ToolCall, xs: seq<ToolCall>)
    ensures var h := Handle(p, env, call, script, x.name, x.arguments);
      CallsLoop(p, env, call, script, [x] + xs)
        == if h.raised.Some? then h else Then(h, CallsLoop(h.p, env, call, h.rest, xs))
  {
    assert ([x] + xs)[0] == x && ([x] + xs)[1..] == xs;
  }

  /** Claude's blocks are handled in order: the blocks of `xs + ys` are those of `xs`, then,
      unless a tool use among them raised, those of `ys` from where `xs` left off. */
  lemma {:induction false} EachBlockSeq(p: Provider, env: Env, call: Caller, script: Script, xs: seq<ReplyBlock>, ys: seq<ReplyBlock>)
    ensures var a := EachBlock(p, env, call, script, xs);
      EachBlock(p, env, call, script, xs + ys)
        == if a.raised.Some? then a else Then(a, EachBlock(a.p, env, call, a.rest, ys))
    decreases |xs|
  {
    if |xs| == 0 {
      assert xs + ys == ys;
      ThenNothing(p, script, EachBlock(p, env, call, script, ys));
    } else {
      assert xs + ys == [xs[0]] + (xs[1..] + ys) && xs == [xs[0]] + xs[1..];
      EachBlockCons(p, env, call, script, xs[0], xs[1..] + ys);
      EachBlockCons(p, env, call, script, xs[0], xs[1..]);
      var h := EachBlock(p, env, call, script, [xs[0]]);
      if h.raised.None? {
        EachBlockSeq(h.p, env, call, h.rest, xs[1..], ys);
        var a := EachBlock(h.p, env, call, h.rest, xs[1..]);
        ThenAssoc(h, a, EachBlock(a.p, env, call, a.rest, ys));
      }
    }
  }

  /** One step of the block loop: the first block alone, then the others. */
  lemma EachBlockCons(p: Provider, env: Env, call: Caller, script: Script, x: ReplyBlock, xs: seq<ReplyBlock>)
    ensures var h := EachBlock(p, env, call, script, [x]);
      EachBlock(p, env, call, script, [x] + xs)
        == if h.raised.Some? then h else Then(h, EachBlock(h.p, env, call, h.rest, xs))
  {
    assert ([x] + xs)[0] == x && ([x] + xs)[1..] == xs && [x][1..] == [];
    var h := EachBlock(p, env, call, script, [x]);
    if h.raised.None? {
      ThenNothing(h.p, h.rest, Run(h.p, [], h.rest, None));
    }
  }

  /** Text, a tool use and more text are handled strictly in the order Claude wrote them: the
      first text is printed and kept, then the call is handled from there, then the second
      text is printed and kept. */
  lemma MixedBlocksInOrder(p: Provider, env: Env, call: Caller, script: Script, a: string, name: string, f: Json, b: string)
    requires Handle(Answered(p, a), env, call, script, name, f).raised.None?
    ensures var h := Handle(Answered(p, a), env, call, script, name, f);
      EachBlock(p, env, call, script, [ReplyText(a), ReplyToolUse(name, f), ReplyText(b)])
        == Run(Answered(h.p, b), [Said(a)] + h.outputs + [Said(b)], h.rest, None)
  {
    var pa := Answered(p, a);
    var h := Handle(pa, env, call, script, name, f);
    var first := Run(pa, [Said(a)], script, None);
    var last := Run(Answered(h.p, b), [Said(b)], h.rest, None);
    assert [ReplyText(a), ReplyToolUse(name, f), ReplyText(b)] == [ReplyText(a)] + [ReplyToolUse(name, f), ReplyText(b)];
    assert [ReplyToolUse(name, f), ReplyText(b)] == [ReplyToolUse(name, f)] + [ReplyText(b)];
    EachBlockCons(p, env, call, script, ReplyText(a), [ReplyToolUse(name, f), ReplyText(b)]);
    EachBlockCons(pa, env, call, script, ReplyToolUse(name, f), [ReplyText(b)]);
    assert EachBlock(pa, env, call, script, [ReplyToolUse(name, f), ReplyText(b)]) == Then(h, last);
    ThenAssoc(first, h, last);
  }

  /** A tool's results are fed back in order: the results of `xs + ys` are those of `xs`,
      then, unless one of them raised, those of `ys` from where `xs` left off. */
  lemma {:induction false} FeedSeq(p: Provider, env: Env, call: Caller, script: Script, name: string, xs: seq<Content>, ys: seq<Content>)
    ensures var a := Feed(p, env, call, script, name, xs);
      Feed(p, env, call, script, name, xs + ys)
        == if a.raised.Some? then a else Then(a, Feed(a.p, env, call, a.rest, name, ys))
    decreases |xs|
  {
    if |xs| == 0 {
      assert xs + ys == ys;
      ThenNothing(p, script, Feed(p, env, call, script, name, ys));
    } else {
      assert xs + ys == [xs[0]] + (xs[1..] + ys) && xs == [xs[0]] + xs[1..];
      FeedCons(p, env, call, script, name, xs[0], xs[1..] + ys);
      FeedCons(p, env, call, script, name, xs[0], xs[1..]);
      var h := Feed(p, env, call, script, name, [xs[0]]);
      if h.raised.None? {
        FeedSeq(h.p, env, call, h.rest, name, xs[1..], ys);
        var a := Feed(h.p, env, call, h.rest, name, xs[1..]);
        ThenAssoc(h, a, Feed(a.p, env, call, a.rest, name, ys));
      }
    }
  }

  /** One step of the result loop: the first result alone, then the others. */
  lemma FeedCons(p: Provider, env: Env, call: Caller, script: Script, name: string, x: Content, xs: seq<Content>)
    ensures var h := Feed(p, env, call, script, name, [x]);
      Feed(p, env, call, script, name, [x] + xs)
        == if h.raised.Some? then h else Then(h, Feed(h.p, env, call, h.rest, name, xs))
  {
    assert ([x] + xs)[0] == x && ([x] + xs)[1..] == xs && [x][1..] == [];
    var h := Feed(p, env, call, script, name, [x]);
    if h.raised.None? {
      ThenNothing(h.p, h.rest, Run(h.p, [], h.rest, None));
    }
  }

  /** `n` answers "done", one per request. */
  function DoneReplies(v: Vendor, n: nat): (s: Script)
    ensures |s| == n
    ensures n > 0 ==> s == [Success(TextReply(v, "done"))] + DoneReplies(v, n - 1)
  {
    if n == 0 then [] else [Success(TextReply(v, "done"))] + DoneReplies(v, n - 1)
  }

  /** What a turn per tool result adds to a begun history when the model answers each with
      "done": the result, then the answer, for each result in order. */
  function ToolTurns(v: Vendor, name: string, texts: seq<string>): (ms: seq<Message>)
    ensures |ms| == 2 * |texts|
  {
    if |texts| == 0 then []
    else [Prompt(v, texts[0], Some(name)), Message("assistant", "done")] + ToolTurns(v, name, texts[1..])
  }

  /** `n` lines `>> done`. */
  function DoneOutputs(n: nat): (os: seq<Output>)
    ensures |os| == n && forall i :: 0 <= i < n ==> os[i] == Said("done")
  {
    if n == 0 then [] else [Said("done")] + DoneOutputs(n - 1)
  }

  /** One text result, answered with "done", in a begun history. */
  lemma FeedOneText(p: Provider, env: Env, call: Caller, name: string, c: Content, text: string, rest: Script)
    requires p.vendor != Claude && |p.messages| > 0
    requires c.kind == "text" && env.utf8Decode(c.Data()) == Success(text)
    ensures Feed(p, env, call, [Success(TextReply(p.vendor, "done"))] + rest, name, [c])
      == Run(p.(messages := p.messages + [Prompt(p.vendor, text, Some(name)), Message("assistant", "done")]), [Said("done")], rest, None)
  {
    var script := [Success(TextReply(p.vendor, "done"))] + rest;
    assert Feed(p, env, call, script, name, [c]) == Chat(p, env, call, script, text, Some(name));
    PlainTurn(p, env, call, text, Some(name), rest);
    AnsweredAfterPrompt(p, text, name);
  }

  /** Each text result is sent to the model in exactly one turn, in the order the tool wrote
      them: with the model answering each with "done", the history gains each result followed
      by its answer, and one answer is used per result. */
  lemma {:induction false} FeedTextsInOrder(p: Provider, env: Env, call: Caller, name: string, cs: seq<Content>, texts: seq<string>, script: Script, rest: Script)
    requires p.vendor != Claude && |p.messages| > 0
    requires |texts| == |cs|
    requires forall i :: 0 <= i < |cs| ==> cs[i].kind == "text" && env.utf8Decode(cs[i].Data()) == Success(texts[i])
    requires script == DoneReplies(p.vendor, |cs|) + rest
    ensures Feed(p, env, call, script, name, cs)
      == Run(p.(messages := p.messages + ToolTurns(p.vendor, name, texts)), DoneOutputs(|cs|), rest, None)
    decreases |cs|
  {
    var v := p.vendor;
    if |cs| == 0 {
      assert script == rest;
      assert p.messages + ToolTurns(v, name, texts) == p.messages;
    } else {
      var tail := DoneReplies(v, |cs| - 1) + rest;
      assert script == [Success(TextReply(v, "done"))] + tail;
      TextStep(p, env, call, name, cs, texts[0], tail);
      var h := Run(p.(messages := p.messages + [Prompt(v, texts[0], Some(name)), Message("assistant", "done")]), [Said("done")], tail, None);
      assert forall i :: 0 <= i < |cs| - 1 ==> cs[1..][i] == cs[i + 1] && texts[1..][i] == texts[i + 1];
      FeedTextsInOrder(h.p, env, call, name, cs[1..], texts[1..], tail, rest);
      JoinTurns(p, name, texts, rest, h, Feed(h.p, env, call, tail, name, cs[1..]));
    }
  }

  /** A first text result answered with "done", then the loop over the others from there. */
  lemma TextStep(p: Provider, env: Env, call: Caller, name: string, cs: seq<Content>, text: string, tail: Script)
    requires p.vendor != Claude && |p.messages| > 0
    requires |cs| > 0 && cs[0].kind == "text" && env.utf8Decode(cs[0].Data()) == Success(text)
    ensures var q := p.(messages := p.messages + [Prompt(p.vendor, text, Some(name)), Message("assistant", "done")]);
      Feed(p, env, call, [Success(TextReply(p.vendor, "done"))] + tail, name, cs)
        == Then(Run(q, [Said("done")], tail, None), Feed(q, env, call, tail, name, cs[1..]))
  {
    assert cs == [cs[0]] + cs[1..];
    FeedCons(p, env, call, [Success(TextReply(p.vendor, "done"))] + tail, name, cs[0], cs[1..]);
    FeedOneText(p, env, call, name, cs[0], text, tail);
  }

  /** The first result's turn followed by the turns of the others. */
  lemma JoinTurns(p: Provider, name: string, texts: seq<string>, rest: Script, h: Run, t: Run)
    requires |texts| > 0
    requires h.p == p.(messages := p.messages + [Prompt(p.vendor, texts[0], Some(name)), Message("assistant", "done")])
    requires h.outputs == [Said("done")]
    requires t == Run(h.p.(messages := h.p.messages + ToolTurns(p.vendor, name, texts[1..])), DoneOutputs(|texts| - 1), rest, None)
    ensures Then(h, t) == Run(p.(messages := p.messages + ToolTurns(p.vendor, name, texts)), DoneOutputs(|texts|), rest, None)
  {
    var turn := [Prompt(p.vendor, texts[0], Some(name)), Message("assistant", "done")];
    assert ToolTurns(p.vendor, name, texts) == turn + ToolTurns(p.vendor, name, texts[1..]);
    assert p.messages + turn + ToolTurns(p.vendor, name, texts[1..]) == p.messages + ToolTurns(p.vendor, name, texts);
  }

  /** A failed call is reported to the model as the tool's answer: the prompt naming the
      error is the next thing in the history. */
  lemma CallFailureReported(p: Provider, env: Env, call: Caller, script: Script, name: string, f: Json, input: Json)
    requires Arguments(env, f) == Success(input)
    requires call(p.client, name, input).1.Failure?
    ensures var e := call(p.client, name, input).1.error;
      Opened(p, ErrorPrompt(name, Text(e)), Some(name)) <= Handle(p, env, call, script, name, f).p.messages
  {
    var (c', res) := call(p.client, name, input);
    var q := p.(client := c');
    var r := Chat(q, env, call, script, ErrorPrompt(name, Text(res.error)), Some(name));
    assert Handle(p, env, call, script, name, f).p == r.p;
  }

  /** The `for c in res` loop inside the `try`: a text result is decoded and sent to the model
      as the tool's answer in one `chat`, an image result is saved, anything else skipped.
      A result that raises ends the loop with its exception. */
  function Feed(p: Provider, env: Env, call: Caller, script: Script, name: string, cs: seq<Content>): (r: Run)
    ensures Keeps(p, script, r.p, r.rest)
    ensures |cs| > 0 && cs[0].kind == "text" && env.utf8Decode(cs[0].Data()).Success? ==>
      Opened(p, env.utf8Decode(cs[0].Data()).value, Some(name)) <= r.p.messages
    ensures |cs| > 0 && cs[0].kind == "text" && env.utf8Decode(cs[0].Data()).Success? ==>
      var h := Chat(p, env, call, script, env.utf8Decode(cs[0].Data()).value, Some(name));
      h.raised.Some? || |cs| == 1 ==> r == h
    ensures |cs| > 0 && cs[0].kind == "text" && env.utf8Decode(cs[0].Data()).Failure? ==>
      r == Run(p, [], script, Some(env.utf8Decode(cs[0].Data()).error))
    ensures |cs| == 1 && cs[0].kind == "image" && cs[0].stored.Some? ==>
      r == Run(p, [ImageSaved(ImageSuffix(cs[0].mimeType), cs[0].stored.value)], script, None)
    ensures |cs| > 0 && cs[0].kind == "image" && cs[0].stored.None? ==>
      r == Run(p, [], script, Some(TypeError(WriteNoneError)))
    decreases |script|, 1, |cs|
  {
    if |cs| == 0 then Run(p, [], script, None)
    else
      var r := FeedOne(p, env, call, script, name, cs[0]);
      if r.raised.Some? then r
      else
        var r2 := Feed(r.p, env, call, r.rest, name, cs[1..]);
        KeepsTrans(p, script, r.p, r.rest, r2.p, r2.rest);
        if cs[0].kind == "text" && env.utf8Decode(cs[0].Data()).Success? then
          PrefixTrans(Opened(p, env.utf8Decode(cs[0].Data()).value, Some(name)), r.p.messages, r2.p.messages);
          Then(r, r2)
        else Then(r, r2)
  }

  /** One result of the tool. */
  function FeedOne(p: Provider, env: Env, call: Caller, script: Script, name: string, c: Content): (r: Run)
    ensures Keeps(p, script, r.p, r.rest)
    ensures c.kind == "text" && env.utf8Decode(c.Data()).Success? ==>
      r == Chat(p, env, call, script, env.utf8Decode(c.Data()).value, Some(name))
    ensures c.kind == "text" && env.utf8Decode(c.Data()).Failure? ==>
      r == Run(p, [], script, Some(env.utf8Decode(c.Data()).error))
    ensures c.kind == "image" && c.stored.Some? ==> r == Run(p, [ImageSaved(ImageSuffix(c.mimeType), c.stored.value)], script, None)
    ensures c.kind == "image" && c.stored.None? ==> r == Run(p, [], script, Some(TypeError(WriteNoneError)))
    ensures c.kind != "text" && c.kind != "image" ==> r == Run(p, [], script, None)
    decreases |script|, 1, 0
  {
    if c.kind == "text" then
      match env.utf8Decode(c.Data())
      case Failure(e) => Run(p, [], script, Some(e))
      case Success(text) => Chat(p, env, call, script, text, Some(name))
    else if c.kind == "image" && c.stored.None? then Run(p, [], script, Some(TypeError(WriteNoneError)))
    else if c.kind == "image" then Run(p, [ImageSaved(ImageSuffix(c.mimeType), c.stored.value)], script, None)
    else Run(p, [], script, None)
  }

  /** The nested turn of a tool result the model answers with "done". */
  lemma PlainTurn(p: Provider, env: Env, call: Caller, msg: string, tool: Option<string>, rest: Script)
    requires p.vendor != Claude
    ensures Chat(p, env, call, [Success(TextReply(p.vendor, "done"))] + rest, msg, tool)
      == Run(Answered(p.(messages := Opened(p, msg, tool)), "done"), [Said("done")], rest, None)
  {
    var script := [Success(TextReply(p.vendor, "done"))] + rest;
    assert script[0] == Success(TextReply(p.vendor, "done")) && script[1..] == rest;
    var q := p.(messages := Opened(p, msg, tool));
    var a := Answered(q, "done");
    var said := Run(a, [Said("done")], rest, None);
    assert ChoiceTurn(q, env, call, rest, Choice(Some("done"), None)) == said;
    assert [Choice(Some("done"), None)][1..] == [];
    assert EachChoice(a, env, call, rest, []) == Run(a, [], rest, None);
    assert [Said("done")] + [] == [Said("done")];
    assert EachChoice(q, env, call, rest, [Choice(Some("done"), None)]) == said;
    assert Turn(q, env, call, rest, TextReply(p.vendor, "done")) == said;
  }

  /** A tool's text result reaches the model as the tool's answer. */
  lemma ToolOutputReachesModel(p: Provider, env: Env, call: Caller, name: string, f: Json, input: Json, data: Bytes, text: string, rest: Script)
    requires p.vendor != Claude
    requires Arguments(env, f) == Success(input)
    requires call(p.client, name, input).1 == Success([Content("text", TextPlain, Some(data))])
    requires env.utf8Decode(data) == Success(text)
    ensures var r := Handle(p, env, call, [Success(TextReply(p.vendor, "done"))] + rest, name, f);
      && r.p.messages == Opened(p, text, Some(name)) + [Message("assistant", "done")]
      && r.outputs == [CallingTool(name), Said("done")]
      && r.rest == rest && r.raised.None?
  {
    var script := [Success(TextReply(p.vendor, "done"))] + rest;
    var c' := call(p.client, name, input).0;
    var q := p.(client := c');
    var content := Content("text", TextPlain, Some(data));
    PlainTurn(q, env, call, text, Some(name), rest);
    var inner := Chat(q, env, call, script, text, Some(name));
    assert inner.p.messages == Opened(p, text, Some(name)) + [Message("assistant", "done")];
    assert Feed(inner.p, env, call, rest, name, []) == Run(inner.p, [], rest, None);
    assert [content][1..] == [];
    assert Feed(q, env, call, script, name, [content]) == Run(inner.p, [Said("done")], rest, None);
  }

  /** A failure while feeding a tool's results back is reported to the model in one more
      turn, after the notice and whatever was printed before the failure. */
  lemma HandleReportsFailure(p: Provider, env: Env, call: Caller, script: Script, name: string, f: Json, input: Json, cs: seq<Content>, fed: Run, r: Run)
    requires Arguments(env, f) == Success(input)
    requires call(p.client, name, input).1 == Success(cs)
    requires fed == Feed(p.(client := call(p.client, name, input).0), env, call, script, name, cs)
    requires fed.raised.Some?
    requires r == Chat(fed.p, env, call, fed.rest, ErrorPrompt(name, Text(fed.raised.value)), Some(name))
    ensures Handle(p, env, call, script, name, f) == Run(r.p, [CallingTool(name)] + fed.outputs + r.outputs, r.rest, r.raised)
  {
  }

  /** A text result whose turn fails at once: the history is opened, the exception raised. */
  lemma FeedFailsAtOnce(q: Provider, env: Env, call: Caller, script: Script, name: string, data: Bytes, text: string)
    requires |script| > 0 && script[0].Failure?
    requires env.utf8Decode(data) == Success(text)
    ensures Feed(q, env, call, script, name, [Content("text", TextPlain, Some(data))])
      == Run(q.(messages := Opened(q, text, Some(name))), [], script[1..], Some(script[0].error))
  {
    assert Chat(q, env, call, script, text, Some(name)) == Run(q.(messages := Opened(q, text, Some(name))), [], script[1..], Some(script[0].error));
  }

  /** The run of a tool call whose text result's turn fails at once and whose error report
      the model answers with "done". */
  lemma NestedFailureRun(p: Provider, env: Env, call: Caller, name: string, f: Json, input: Json, data: Bytes, text: string, e: Error, rest: Script)
    requires p.vendor != Claude
    requires Arguments(env, f) == Success(input)
    requires call(p.client, name, input).1 == Success([Content("text", TextPlain, Some(data))])
    requires env.utf8Decode(data) == Success(text)
    ensures var q := p.(client := call(p.client, name, input).0);
      var op := q.(messages := Opened(q, text, Some(name)));
      Handle(p, env, call, [Failure(e), Success(TextReply(p.vendor, "done"))] + rest, name, f)
        == Run(Answered(op.(messages := Opened(op, ErrorPrompt(name, Text(e)), Some(name))), "done"), [CallingTool(name), Said("done")], rest, None)
  {
    var script := [Failure(e), Success(TextReply(p.vendor, "done"))] + rest;
    TwoAnswers(Failure(e), Success(TextReply(p.vendor, "done")), rest);
    var tail := [Success(TextReply(p.vendor, "done"))] + rest;
    var q := p.(client := call(p.client, name, input).0);
    var op := q.(messages := Opened(q, text, Some(name)));
    var fed := Run(op, [], tail, Some(e));
    FeedFailsAtOnce(q, env, call, script, name, data, text);
    var prompt := ErrorPrompt(name, Text(e));
    PlainTurn(op, env, call, prompt, Some(name), rest);
    var done := Answered(op.(messages := Opened(op, prompt, Some(name))), "done");
    var r2 := Run(done, [Said("done")], rest, None);
    HandleReportsFailure(p, env, call, script, name, f, input, [Content("text", TextPlain, Some(data))], fed, r2);
    assert [CallingTool(name)] + [] + [Said("done")] == [CallingTool(name), Said("done")];
  }

  /** When the nested turn for a tool's result fails, the failure is caught and reported to
      the model in one more turn. */
  lemma NestedFailureReported(p: Provider, env: Env, call: Caller, name: string, f: Json, input: Json, data: Bytes, text: string, e: Error, rest: Script)
    requires p.vendor != Claude
    requires Arguments(env, f) == Success(input)
    requires call(p.client, name, input).1 == Success([Content("text", TextPlain, Some(data))])
    requires env.utf8Decode(data) == Success(text)
    ensures var r := Handle(p, env, call, [Failure(e), Success(TextReply(p.vendor, "done"))] + rest, name, f);
      && r.p.messages == Opened(p, text, Some(name)) + [Prompt(p.vendor, ErrorPrompt(name, Text(e)), Some(name)), Message("assistant", "done")]
      && r.outputs == [CallingTool(name), Said("done")]
      && r.rest == rest && r.raised.None?
  {
    NestedFailureRun(p, env, call, name, f, input, data, text, e, rest);
    var q := p.(client := call(p.client, name, input).0);
    AnsweredAfterReport(q, q.(messages := Opened(q, text, Some(name))), text, Some(name), ErrorPrompt(name, Text(e)), name);
  }

  /** What printing the text of each of `bs` shows, in order. */
  function TextOutputs(bs: seq<ReplyBlock>): (r: seq<Output>)
    requires forall i :: 0 <= i < |bs| ==> bs[i].ReplyText?
    ensures |r| == |bs|
    ensures forall i :: 0 <= i < |bs| ==> r[i] == Said(bs[i].text)
  {
    seq(|bs|, i requires 0 <= i < |bs| => Said(bs[i].text))
  }

  /** Printing the first block's text and then the rest prints them all. */
  lemma TextOutputsStep(bs: seq<ReplyBlock>)
    requires |bs| > 0 && forall i :: 0 <= i < |bs| ==> bs[i].ReplyText?
    ensures [Said(bs[0].text)] + TextOutputs(bs[1..]) == TextOutputs(bs)
  {
  }

  /** Claude's text blocks are kept in the history and printed in the order the model wrote
      them. */
  lemma {:induction false} TextBlocksInOrder(p: Provider, env: Env, call: Caller, script: Script, bs: seq<ReplyBlock>)
    requires forall i :: 0 <= i < |bs| ==> bs[i].ReplyText?
    ensures EachBlock(p, env, call, script, bs) == Run(p.(messages := p.messages + KeptTexts(bs)), TextOutputs(bs), script, None)
    decreases |bs|
  {
    if |bs| > 0 {
      var t := bs[0].text;
      var q := Answered(p, t);
      TextBlocksInOrder(q, env, call, script, bs[1..]);
      KeptTextsStep(p, bs);
      TextOutputsStep(bs);
    } else {
      assert p.messages + [] == p.messages;
    }
  }

  /** What saving each of `cs` as an image prints, in order. */
  function Saved(cs: seq<Content>): (r: seq<Output>)
    requires forall i :: 0 <= i < |cs| ==> cs[i].stored.Some?
    ensures |r| == |cs|
    ensures forall i :: 0 <= i < |cs| ==> r[i] == ImageSaved(ImageSuffix(cs[i].mimeType), cs[i].stored.value)
  {
    seq(|cs|, i requires 0 <= i < |cs| && cs[i].stored.Some? => ImageSaved(ImageSuffix(cs[i].mimeType), cs[i].stored.value))
  }

  /** Image results with data are saved, in order, and never sent to the model: the history
      and the remaining answers are untouched. */
  lemma {:induction false} ImagesNotFedBack(p: Provider, env: Env, call: Caller, script: Script, name: string, cs: seq<Content>)
    requires forall i :: 0 <= i < |cs| ==> cs[i].kind == "image" && cs[i].stored.Some?
    ensures Feed(p, env, call, script, name, cs) == Run(p, Saved(cs), script, None)
    decreases |cs|
  {
    if |cs| > 0 {
      ImageStep(p, env, call, script, name, cs);
      assert forall i :: 0 <= i < |cs| - 1 ==> cs[1..][i] == cs[i + 1];
      ImagesNotFedBack(p, env, call, script, name, cs[1..]);
      SavedStep(cs);
    }
  }

  /** Saving the first image and then the rest saves them all. */
  lemma SavedStep(cs: seq<Content>)
    requires |cs| > 0 && forall i :: 0 <= i < |cs| ==> cs[i].stored.Some?
    ensures [ImageSaved(ImageSuffix(cs[0].mimeType), cs[0].stored.value)] + Saved(cs[1..]) == Saved(cs)
  {
  }

  /** An image with data first in the results is saved, and the loop goes on from the same
      history and answers. */
  lemma ImageStep(p: Provider, env: Env, call: Caller, script: Script, name: string, cs: seq<Content>)
    requires |cs| > 0 && cs[0].kind == "image" && cs[0].stored.Some?
    ensures Feed(p, env, call, script, name, cs)
      == Then(Run(p, [ImageSaved(ImageSuffix(cs[0].mimeType), cs[0].stored.value)], script, None), Feed(p, env, call, script, name, cs[1..]))
  {
  }

  /** An image result without data cannot be written to its file: the TypeError is reported
      to the model in one more turn, after the "Calling tool" notice, and nothing is saved. */
  lemma DatalessImageReported(p: Provider, env: Env, call: Caller, script: Script, name: string, f: Json, input: Json, mime: Json)
    requires Arguments(env, f) == Success(input)
    requires call(p.client, name, input).1 == Success([Content("image", mime, None)])
    ensures var q := p.(client := call(p.client, name, input).0);
      var r := Chat(q, env, call, script, ErrorPrompt(name, WriteNoneError), Some(name));
      Handle(p, env, call, script, name, f) == Run(r.p, [CallingTool(name)] + r.outputs, r.rest, r.raised)
    ensures Opened(p, ErrorPrompt(name, WriteNoneError), Some(name)) <= Handle(p, env, call, script, name, f).p.messages
  {
    var q := p.(client := call(p.client, name, input).0);
    var cs := [Content("image", mime, None)];
    assert cs[0].kind == "image" && cs[0].stored.None?;
    var fed := Feed(q, env, call, script, name, cs);
    assert fed == Run(q, [], script, Some(TypeError(WriteNoneError)));
    var r := Chat(q, env, call, script, ErrorPrompt(name, WriteNoneError), Some(name));
    HandleReportsFailure(p, env, call, script, name, f, input, cs, fed, r);
    assert [CallingTool(name)] + [] + r.outputs == [CallingTool(name)] + r.outputs;
    assert Handle(p, env, call, script, name, f).p == r.p;
    assert Opened(q, ErrorPrompt(name, WriteNoneError), Some(name)) == Opened(p, ErrorPrompt(name, WriteNoneError), Some(name));
  }
}
