# mcpx-py client core, modelled in Dafny

This project models the core of the mcp.run Python client (`mcpx` and its older twin
`mcpx_client`). The model covers:

- the time-to-live `Cache` both client modules keep installs and sandbox instances in;
- the `installs` directory with its refresh rule, and `list_installs`, which parses the
  registry's installation list;
- the `tools` index, `plugin` (sandbox instantiation through the plugin cache) and `call`;
- `InstalledPlugin.call`: the request envelope and the decoding of the reply into `Content`
  blocks;
- the chat providers (Ollama, OpenAI, Claude) of `mcpx/chat.py` and `mcpx_client/chat.py`:
  `_convert_tool`, `get_tools`, `handle_tool_call`, and the rules for which messages each
  `chat` appends to the history and which events it yields or prints.

Everything is immutable data and pure functions:

- A `Client` is a value. Every operation returns the new client together with its result
  or the exception it raised.
- The clock, the HTTP API, the extism sandbox, Python's `hash` and the base64, UTF-8 and
  JSON codecs are fields of an `Env` (`host.dfy`). Each is an uninterpreted function.
- A model's replies are a `Script`: one reply (or the SDK's exception) per request, used in
  order.
- The chat modules see the client only through its `call`, a function parameter of type
  `Caller`. Every chat property holds for any such function. `ClientCall(env)` is the one
  the client modules define: `Calls.Call` or `LegacyCalls.Call` with a WASI sandbox and no
  host functions, the defaults `handle_tool_call` uses.
- A run of a `chat` generator or coroutine is a `Run`. It records:
  - the provider it leaves;
  - the events it yielded (`mcpx`) or the lines it printed (`mcpx_client`);
  - the unused replies;
  - the exception it ended with.

Modules:

| file | module | what it holds |
|---|---|---|
| `dict.dfy` | `Dict` | Python's insertion-ordered `dict`. |
| `json.dfy` | `Json` | Decoded JSON values, plus `v[k]`, `for x in v`, `k in v` and `v.get`, each with CPython's exceptions. |
| `cache.dfy` | `Cache` | The TTL cache. |
| `endpoints.dfy` | `Endpoints` | The mcp.run URLs. |
| `servlets.dfy` | `Servlets` | Tools, servlets, `Content`, `list_installs`. |
| `plugins.dfy` | `Plugins` | Manifests, the plugin cache key, `InstalledPlugin.call`. |
| `directory.dfy` | `Directory` | What both `Client` classes share: `installs` and `plugin`. |
| `client.dfy` | `Calls` | `tools` and `call` of `mcpx/client.py`. |
| `legacy_client.dfy` | `LegacyCalls` | `tools` and `call` of `mcpx_client/client.py`. |
| `chat_core.dfy` | `ChatCore` | Vendors, history opening, `_convert_tool`, `get_tools`, replies. |
| `chat.dfy` | `Chat` | The generator providers and `handle_tool_call` of `mcpx/chat.py`. |
| `legacy_chat.dfy` | `LegacyChat` | The coroutine providers and `handle_tool_call` of `mcpx_client/chat.py`. |

The model follows the code as written, including these consequences of it:

- **Refresh before fetch.** `installs` clears and stamps both caches before it reads the
  installation list (`mcpx/client.py:358-362`). A listing that fails part-way raises, but
  the servlets read before the failure stay in a cache stamped as fresh, and reads within
  the window return them without error.
- **Plugin cache key.** `plugin` looks up `str(hash(f"{name}-{wasi}"))`
  (`mcpx/client.py:386-393`) but stores the instance under the servlet's name (line 414).
  While no servlet name is a decimal numeral, every request builds a new sandbox. A
  servlet whose name is a numeral can be handed out for a different request.
- **`mcpx` tool results.** `handle_tool_call` in `mcpx/chat.py` iterates over a
  `CallResult`, which is not iterable. Every tool call is therefore reported to the model
  as that TypeError. The `except` branch also yields the nested generator object itself,
  once per event.
- **Host functions.** Passing any host function to `plugin` raises a TypeError, because
  the code adds an int to a str.

## Model

| member | source | states |
|---|---|---|
| Cache.New | mcpx/client.py:249-252 | A new cache is empty, has never been updated, and keeps the duration it was given. |
| Cache.Add | mcpx/client.py:254-255 | `add` stores the item under its key, changes no other key, adds exactly that key, and leaves the duration and stamp alone. |
| Cache.Remove | mcpx/client.py:257-258 | `remove` succeeds exactly when the key is present, and otherwise raises KeyError for that key. On success it removes exactly that key and leaves every other entry unchanged. |
| Cache.Clear | mcpx/client.py:260-270 | `clear` empties the cache and stamps `now`. Afterwards `needs_refresh` holds at a later time exactly when there is a duration and at least that much time has passed. So a cache without a duration never needs a refresh, and one with a positive duration is fresh right after `clear`. |
| Endpoints.ContentInjective | mcpx/client.py:31-35 | Different content addresses are fetched from different URLs. |
| Endpoints.InstallationsNotContent | mcpx/client.py:24-35 | The installation-list URL is never a content URL. |
| Errors.Text | mcpx/chat.py:117-118 | `str(exc)` of a KeyError is CPython's `repr` of the key. The quotes are single unless the key holds a single quote and no double quote. Backslash, the enclosing quote, tab, newline, carriage return and the other ASCII control characters are escaped. Any other exception renders as its message. |
| Errors.PlainShownAsIs | mcpx/chat.py:117-118 | A key without backslashes, control characters or both kinds of quote appears unchanged between its quotes. |
| Errors.ReprRoundTrip | mcpx/chat.py:117-118 | The rendered key loses nothing: reading back the escapes between the quotes gives the key. |
| Errors.ReprInjective | mcpx/chat.py:117-118 | Two different missing keys are reported with different texts. |
| Json.Index | mcpx/client.py:328-349 | `v[key]` succeeds exactly on a dict holding the key and answers its value. It raises KeyError on a dict without the key and TypeError on any other value. |
| Json.Iter | mcpx/client.py:328 | `for x in v` visits a list's items, a dict's keys in order, or a string's characters. Any other value raises. |
| Json.Contains | mcpx/client.py:331 | `"tools" in v` is dict-key membership, list membership or substring search, depending on the value. Other values raise TypeError. |
| Json.GetOr | mcpx/client.py:405-407 | `.get(key, default)` works only on a dict. It answers the stored value (even null) when the key is present, the default otherwise, and an AttributeError on any other value. |
| Servlets.ToolList | mcpx/client.py:330-334 | A schema with a `"tools"` key lists those tools; a schema without one is itself the only tool; a schema that cannot be tested for membership raises. |
| Servlets.ParseTools | mcpx/client.py:343-349 | The tools dict has no repeated names, stores each tool under its own name, and gives every tool the servlet back-reference. |
| Servlets.ParseInstall | mcpx/client.py:328-349 | A parsed servlet has no module bytes yet and its tools are linked to it. `mcpx_client/client.py:176-197` reads the same fields in a different order; the `Variant` selects the order. |
| Servlets.ParseEach | mcpx/client.py:328-350 | The generator yields the servlets of the first entries in order, each the parse of its entry. It stops at the first entry that raises, with that entry's exception. |
| Servlets.ListInstalls | mcpx/client.py:315-350 | Every servlet `list_installs` yields is fresh: no module bytes, and each tool stored under its own name with the back-reference. |
| Servlets.ParseInstallWith | mcpx/client.py:335-349 | Parsing a registry entry gives back the servlet it lists, whichever schema form lists its tools. |
| Servlets.ParseInstallJson | mcpx/client.py:328-349 | Round trip: a servlet listed with a `"tools"` schema parses back to itself. |
| Servlets.SingleToolSchema | mcpx/client.py:330-334 | A schema without a `"tools"` key describes exactly one tool: a one-tool servlet listed that way parses back to itself. |
| Servlets.ParseToolsJson | mcpx/client.py:343-349 | Round trip: the tool list of a dict of tools rebuilds that dict, in order. |
| Servlets.ListInstallsRoundTrip | mcpx/client.py:315-350 | `list_installs` over the registry's listing of some servlets yields exactly those servlets, in order, without error. |
| Plugins.BuildManifest | mcpx/client.py:402-408 | The manifest carries the module bytes. Building succeeds exactly when the settings hold `permissions` and its `filesystem` and `network` entries are dicts, and raises otherwise. Missing volumes, domains and config default to `{}`, `[]` and `{}`. |
| Plugins.BarePermissionsBuild | mcpx/client.py:402-408 | Settings with empty `filesystem` and `network` dicts and no `config` build a manifest with no volumes, no hosts and an empty config, without raising. |
| Plugins.DefaultDeny | mcpx/client.py:405-406 | Permissions that name no domains and no volumes give no allowed hosts and no allowed paths. |
| Plugins.LookupKey | mcpx/client.py:386-391 | The key the plugin cache is searched under is always a decimal numeral, the `str` of an int. |
| Plugins.RequestFields | mcpx/client.py:169 | The sandbox reads back exactly the tool name and the arguments from `{"params": {"arguments": …, "name": …}}`. |
| Plugins.EncodeText | mcpx/client.py:177 | `.encode()` succeeds exactly on a str and gives its UTF-8 bytes. |
| Plugins.DecodeBase64 | mcpx/client.py:182 | An image's `data` is decoded as base64 when it is a str; any other value raises. |
| Plugins.DecodeEntry | mcpx/client.py:174-185 | A decoded entry is only ever a text or an image block, and a text block is `text/plain`. |
| Plugins.DecodeEntries | mcpx/client.py:173-186 | The result is never longer than the reply's list and holds only text and image blocks. |
| Plugins.Expected | mcpx/client.py:173-186 | Reference meaning of a reply: texts as UTF-8 `text/plain`, images as decoded bytes with their MIME type, in order, other blocks dropped. |
| Plugins.DecodeBlock | mcpx/client.py:174-185 | One block decodes to its expected content, or to nothing for another type. |
| Plugins.DecodeBlocks | mcpx/client.py:173-186 | The decoding loop gives exactly the expected blocks, in the module's order. |
| Plugins.CallPluginReply | mcpx/client.py:163-186 | `InstalledPlugin.call` sends the chosen tool (by default the install's name) with the input, and answers exactly the blocks the module wrote: in order, other types dropped. |
| Plugins.ContentOrderExample | mcpx/client.py:173-186 | Text "a", an image and text "c" come back as those three blocks, in that order. |
| Directory.NewClient | mcpx/client.py:303-313 | A new client has two empty caches. The install cache refreshes on first use exactly when it has a refresh time; the plugin cache never asks for a refresh. The client's invariant holds. |
| Directory.Installs | mcpx/client.py:352-363 | While fresh: the cached servlets, with no fetch and no change. When stale: both caches stamped `now` and the plugin cache emptied; install keys are exactly the fetched names, each holding the last fetched servlet of that name; the listing's exception propagates. The invariant is kept. |
| Directory.AtMostOneFetch | mcpx/client.py:358-363 | After a refresh, any read within the window is served from the cache. |
| Directory.RefetchAfterWindow | mcpx/client.py:358-363 | Once the window has passed after a refresh, the next read fetches again. |
| Directory.PartialListingServedLater | mcpx/client.py:358-363 | A listing that fails part-way raises now, keeps the servlets read before the failure, and a read within the window then returns them without error. |
| Directory.ModuleBytes | mcpx/client.py:394-401 | The module is downloaded from its content URL only when the servlet has no bytes yet; otherwise the stored bytes are used. |
| Directory.Instantiate | mcpx/client.py:394-415 | On a cache miss the module bytes are fetched if absent, and the manifest is built from the settings. A failed fetch, a failed manifest and a failed load each raise their own error, in that order. When all three succeed the result is the servlet, now holding its bytes, with a sandbox of that manifest. The sandbox is loaded with `wasi` and stored under the servlet's name, touching no other key. Fetched bytes are stored on the servlet even when building the manifest or loading the sandbox then fails, because line 401 runs first. The servlet comes back with them, for the caller to write back into the install cache. The plugin cache changes only when the load succeeds. |
| Directory.Plugin | mcpx/client.py:377-415 | Any host function raises the str-plus-int TypeError. Otherwise a hit on the hashed key answers the cached instance and a miss instantiates. The invariant is kept. |
| Directory.PluginAlwaysMisses | mcpx/client.py:391-414 | While no cached name looks like a number, every request builds a new instance. |
| Directory.SecondRequestRebuilds | mcpx/client.py:386-415 | A second request for the same servlet instantiates again and downloads nothing: the bytes were kept on the servlet. |
| Directory.NumeralNameServesOtherPlugin | mcpx/client.py:391-393 | In a valid client every plugin-cache entry holds the instance of the servlet it is named after. So when the hashed key of a request for a non-numeral name is already cached, the request gets the instance of a different servlet: the one whose name is that numeral. |
| Directory.ProvidedFrom | mcpx/client.py:372-374 | Every (install, tool) pair the index loop visits is a servlet with one of its tools. |
| Directory.ProvidedCovers | mcpx/client.py:372-374 | The index loop visits every tool of every servlet. |
| Directory.WriteBack | mcpx/client.py:401 | Bytes stored on the servlet object become visible through the install cache exactly when that object is the cached one. Nothing else changes, and the invariant is kept. |
| Calls.Tools | mcpx/client.py:365-375 | `tools` reads `installs` (refreshing if due), propagates its exception, and otherwise indexes the cached servlets. |
| Calls.ToolIndexKeys | mcpx/client.py:370-375 | A name is indexed exactly when some cached servlet has a tool of that name. |
| Calls.ToolIndexFrom | mcpx/client.py:370-375 | Every indexed tool is a tool of a cached servlet, under its own name. |
| Calls.ToolIndexOwner | mcpx/client.py:343-375 | In a client that keeps its invariant, every indexed tool's back-reference names a cached servlet that holds that same tool under that name. |
| Calls.LastInstallWins | mcpx/client.py:372-374 | On a name collision, the index holds the tool of the last servlet that offers the name: when servlet `j` offers it and no later servlet does, the index entry is `j`'s tool, whatever earlier servlets offered. |
| Calls.Owner | mcpx/client.py:429 | The owner found is the cached servlet the tool's back-reference names. |
| Calls.CallTool | mcpx/client.py:417-430 | `call` once the tool object is in hand: the tool's servlet is instantiated and its failure propagated; otherwise the answer is exactly what `InstalledPlugin.call` answers for the tool's name. The returned client has the plugin cache `plugin` left. When the servlet is the cached one, the install cache holds it with the module bytes `plugin` stored on it. No other install entry changes, the install cache's duration and last update are kept, and the tool index is unchanged. |
| Calls.Call | mcpx/client.py:417-430 | An exception from `installs`, raised through `self.tools`, reaches the caller unchanged. An unknown name raises KeyError right after the index is read, before any plugin work. The invariant is kept. |
| Calls.CallFindsOwner | mcpx/client.py:427-430 | A listed tool always reaches the servlet that holds it; the back-reference never dangles. |
| Calls.RemovedToolNotFound | mcpx/client.py:427-428 | After a refresh whose listing drops a tool, calling it raises KeyError and no cached instance survives. |
| Calls.CallAnswersBlocks | mcpx/client.py:417-430 | End to end: calling a listed tool sends its name and input to its servlet's sandbox and answers the written blocks, in order. |
| Calls.StoredModuleReused | mcpx/client.py:394-430 | A stored module is not downloaded again within the refresh window. After a call has stored the bytes, a later call of the same tool before the install cache goes stale reaches the same tool and servlet. That servlet now carries the bytes, which are used instead of a download. |
| Calls.PutSameTools | mcpx/client.py:370-375 | Replacing a cached servlet by one with the same tools, such as the same servlet carrying its bytes, leaves the tool index unchanged. |
| Calls.ProvidedSameTools | mcpx/client.py:372-374 | The index sees only the servlets' tools: servlets with the same tools, in the same order, give the same index. |
| LegacyCalls.Tools | mcpx_client/client.py:209-216 | `tools` reads `installs`, propagates its exception, and otherwise maps names to (servlet, tool) pairs. |
| LegacyCalls.LastValueTools | mcpx_client/client.py:213-215 | Indexing pairs and indexing bare tools pick the same last assignment for every name. |
| LegacyCalls.SameIndexAsMcpx | mcpx_client/client.py:209-216 | The older index has the same names as `mcpx`'s, and the same tool under each. |
| LegacyCalls.ToolIndexOwner | mcpx_client/client.py:209-216 | Every indexed pair is a cached servlet, under its own name, together with one of its tools stored there under the indexed name. |
| LegacyCalls.Call | mcpx_client/client.py:255-264 | An exception from `installs`, raised through `self.tools`, reaches the caller unchanged. An unknown name raises KeyError before any plugin work. A known one instantiates the owning servlet and answers `InstalledPlugin.call` with the name as given, or the instantiation's exception. |
| LegacyCalls.CallAnswersBlocks | mcpx_client/client.py:255-264 | End to end: a listed tool answers the plain list of blocks its servlet's sandbox wrote, in order. |
| ChatCore.NewProvider | mcpx/chat.py:57-61 | A new provider has empty history and no tools. |
| ChatCore.ConvertToolFields | mcpx/chat.py:133-141 | Each vendor's description carries exactly the tool's name, description and input schema. Ollama and OpenAI (186-194) nest them under `function` with `parameters`; Claude (238-243) keeps them flat with `input_schema`. |
| ChatCore.GetTools | mcpx/chat.py:79-92 | `get_tools` replaces the tool list with one description per tool of every servlet, in install-then-tool order, or keeps the old list when `installs` raises. |
| ChatCore.GetToolsAdvertisesOffered | mcpx/chat.py:83-92 | Every tool of every cached servlet is described to the model. |
| ChatCore.GetToolsDescribesOffered | mcpx/chat.py:83-92 | Every description reads back to a tool of some cached servlet. |
| ChatCore.ToolResultLooksTyped | mcpx/chat.py:201-207 | For OpenAI and Claude a tool result is a `user` message whose text names the tool call. |
| ChatCore.OllamaToolRole | mcpx/chat.py:148-153 | Ollama uses the `tool` role exactly for tool results. |
| ChatCore.Opened | mcpx/chat.py:146-153 | A turn keeps the old history and adds the system message only to an empty Ollama or OpenAI history (never for Claude), then one prompt. |
| ChatCore.OpenedOk | mcpx/chat.py:197-208 | Opening a turn keeps every role in its place: `system` only first and never for Claude, `tool` only for Ollama. |
| ChatCore.Answered | mcpx/chat.py:172-177 | Keeping the assistant's text appends exactly one assistant message and keeps the role rules. |
| ChatCore.ImageSuffix | mcpx/chat.py:106-109 | An image is saved as `.png` exactly for `image/png`, and as `.jpg` otherwise. |
| ChatCore.Arguments | mcpx/chat.py:96-97 | Every str argument is JSON-decoded, and a decoding failure is raised. Any other value is used as it is. `mcpx_client/chat.py:87-88` does the same. |
| ChatCore.TextReply | mcpx/chat.py:156-162 | A text-only answer has the reply shape of the vendor's SDK. |
| Chat.Chat | mcpx/chat.py:143-178 | A turn opens the history, yields the tool echo first for a tool result, and raises the SDK's exception with only the opened history. |
| Chat.EachChoice | mcpx/chat.py:214-230 | With one choice, or when the first choice raises, the loop is exactly that choice's turn. Replies are used in order and the history only grows. |
| Chat.EachChoiceSeq | mcpx/chat.py:214-230 | Choices are handled in order. Over `xs + ys` the loop is the loop over `xs`, then, unless that raised, the loop over `ys` from where `xs` left off, with its events after those of `xs`. |
| Chat.ChoiceTurn | mcpx/chat.py:165-178 | A choice without tool calls appends and yields its non-empty text, or otherwise changes nothing. If a tool call raises, the choice ends with that call loop's run. Otherwise the calls' events and history come first, and non-empty text is then the last message kept and the last event yielded. |
| Chat.CallsLoop | mcpx/chat.py:166-170 | With one call, or when the first call raises, the loop is exactly that call's handling. The first exception stops the loop. |
| Chat.CallsLoopSeq | mcpx/chat.py:166-170 | Tool calls are handled in order. Over `xs + ys` the loop is the loop over `xs`, then, unless that raised, the loop over `ys` from where `xs` left off. |
| Chat.EachBlock | mcpx/chat.py:265-278 | A single text block is appended and yielded; a single other block changes nothing. A first tool use is exactly that call's handling when it raises or is the only block. The history only grows. |
| Chat.EachBlockSeq | mcpx/chat.py:265-278 | Claude's blocks are handled in order. Over `xs + ys` the loop is the loop over `xs`, then, unless a tool use raised, the loop over `ys` from where `xs` left off. |
| Chat.MixedBlocksInOrder | mcpx/chat.py:265-278 | Text, a tool use, then text are handled in exactly that order. The first text is kept and yielded, then the call is handled from that history, then the second text is kept and yielded. |
| Chat.Handle | mcpx/chat.py:95-125 | Undecodable arguments raise before the `try`. Otherwise every event yielded is the nested generator. |
| Chat.ErrorReported | mcpx/chat.py:98-125 | Every handled call is reported to the model as an error: the client's own exception, or the TypeError of iterating its result. The report follows the history the call started from. |
| Chat.HandledNotIterable | mcpx/chat.py:98-125 | When the client's call succeeds and the model answers the report with text, the handling leaves the report and the answer in the history and yields the nested generator twice. |
| Chat.OneCall | mcpx/chat.py:165-170 | A choice without text that asks for one tool call amounts to handling that call. |
| Chat.PlainAnswer | mcpx/chat.py:143-178 | A text-only answer is appended to the opened history and yielded once, for every vendor. |
| Chat.ToolOutputNeverReachesModel | mcpx/chat.py:100-125 | Even a successful tool call reaches the model only as the TypeError of iterating the `CallResult`; the caller receives the nested generator twice. |
| Chat.PlainTurn | mcpx/chat.py:196-230 | A turn answered with text yields the tool echo (if any) and the answer, and keeps the answer. |
| Chat.TextBlocksInOrder | mcpx/chat.py:265-275 | Claude's text blocks are appended and yielded in the model's order. |
| LegacyChat.Chat | mcpx_client/chat.py:128-160 | A turn opens the history and raises the SDK's exception with only the opened history. |
| LegacyChat.EachChoice | mcpx_client/chat.py:194-209 | With one choice, or when the first choice raises, the loop is exactly that choice's turn. Replies are used in order and the history only grows. |
| LegacyChat.EachChoiceSeq | mcpx_client/chat.py:194-209 | Choices are handled in order. Over `xs + ys` the loop is the loop over `xs`, then, unless that raised, the loop over `ys` from where `xs` left off, with its output after that of `xs`. |
| LegacyChat.ChoiceTurn | mcpx_client/chat.py:148-160 | Non-empty text is printed and appended before any tool call is dispatched. |
| LegacyChat.CallsLoop | mcpx_client/chat.py:157-160 | With one call, or when the first call raises, the loop is exactly that call's handling. The first exception stops the loop. |
| LegacyChat.CallsLoopSeq | mcpx_client/chat.py:157-160 | Tool calls are dispatched in order. Over `xs + ys` the loop is the loop over `xs`, then, unless that raised, the loop over `ys` from where `xs` left off. |
| LegacyChat.EachBlock | mcpx_client/chat.py:242-254 | A single text block is appended and printed; a single other block changes nothing. A first tool use is exactly that call's handling when it raises or is the only block. The history only grows. |
| LegacyChat.EachBlockSeq | mcpx_client/chat.py:242-254 | Claude's blocks are handled in order. Over `xs + ys` the loop is the loop over `xs`, then, unless a tool use raised, the loop over `ys` from where `xs` left off. |
| LegacyChat.MixedBlocksInOrder | mcpx_client/chat.py:242-254 | Text, a tool use, then text are handled in exactly that order. The first text is kept and printed, then the call is handled from that history, then the second text is kept and printed. |
| LegacyChat.Handle | mcpx_client/chat.py:86-110 | Undecodable arguments raise before anything is printed. Otherwise "Calling tool" is printed first. |
| LegacyChat.CallFailureReported | mcpx_client/chat.py:90-110 | A call the client fails is reported to the model as the tool's answer, right after the history the call started from. |
| LegacyChat.Feed | mcpx_client/chat.py:92-103 | A first text result that decodes opens a turn with that text as the tool's answer. It is exactly that turn when the turn raises or is the only result. A first text result that does not decode raises its error before any turn. A single image result with data is saved and printed. A first image result without data raises the TypeError of `tmp.write(None)`, saving nothing. |
| LegacyChat.FeedSeq | mcpx_client/chat.py:92-103 | A tool's results are fed back in order. Over `xs + ys` the loop is the loop over `xs`, then, unless that raised, the loop over `ys` from where `xs` left off. |
| LegacyChat.FeedTextsInOrder | mcpx_client/chat.py:92-94 | Each text result goes to the model in exactly one turn, in the tool's order. When the model answers each with "done", the history gains each result followed by its answer, one reply is used per result, and "done" is printed once per result. |
| LegacyChat.PlainTurn | mcpx_client/chat.py:178-209 | A turn answered with text prints and keeps that text. |
| LegacyChat.ToolOutputReachesModel | mcpx_client/chat.py:86-94 | A tool's text result becomes the tool's message in the history, followed by the model's answer. |
| LegacyChat.NestedFailureRun | mcpx_client/chat.py:90-110 | The whole run of a call whose text result's turn fails at once: "Calling tool", then the report's turn answered with "done". |
| LegacyChat.NestedFailureReported | mcpx_client/chat.py:90-110 | When the turn for a tool's result fails, the failure is caught and reported in one more turn. |
| LegacyChat.TextBlocksInOrder | mcpx_client/chat.py:242-252 | Claude's text blocks are appended and printed in the model's order. |
| LegacyChat.ImagesNotFedBack | mcpx_client/chat.py:95-103 | Image results that carry data are saved in order and never sent to the model; the history is untouched. |
| LegacyChat.DatalessImageReported | mcpx_client/chat.py:95-110 | An image result without data makes `tmp.write` raise a TypeError. It is caught, and its message is reported to the model in one more turn after the "Calling tool" notice. |

## Left out

- The network: `requests.get` and the vendor SDK calls are `Env` functions or scripted replies.
- The extism sandbox: `ext.Plugin` and `_plugin.call` are uninterpreted `Env` functions. The
  model does not run WASM.
- Base64 (section 4 of RFC 4648), UTF-8, JSON text parsing (RFC 8259) and Python's
  per-process salted `hash` are uninterpreted functions.
- Host functions: `functions` is modelled only by how many there are. Any non-empty list
  raises the str-plus-int TypeError before its pointers matter.
- The clock: `datetime.now()` is `Env.now`, read once per operation.
- Session-ID discovery (`_default_session_id`, `_parse_mcpx_config`): environment variables
  and files.
- The import-time default `Client()` and the command-line front ends.
- `tempfile` names: an image result is recorded by its suffix and bytes, not by its path.
- Debug printing, and the `model`, `url` and `format` settings that are only passed through
  to the vendor SDK.
- The base `ChatProvider.chat`: it does nothing.
- Installs in `get_tools` that are `None`: the cache only ever holds servlets, so the skip
  never fires.
- Names: install names, tool names and content addresses must be JSON strings. Python would
  accept other values, which `ParseInstall` rejects with a TypeError.
- Numbers: JSON numbers are integers; floats are not modelled.
- Servlets.ParseInstall: it states only that a parsed servlet is fresh. Its exact result is
  stated by the round-trip lemmas for well-formed listings, not for arbitrary payloads.
- A reply is dispatched by its shape (`Choices` or `Blocks`), not by the vendor. `Fits`
  states which shape each vendor's SDK returns.
- When a turn asks for more replies than the script holds, it raises `NoReply`. This stands
  in for whatever the SDK would answer.
- Calls.Call: the `AttributeError` branch for a tool whose back-reference no longer resolves
  is reachable only in a client that breaks `Valid`. `CallFindsOwner` shows it never fires
  otherwise.
- Errors.Text: non-ASCII characters that CPython does not count as printable are kept as
  they are. CPython's `repr` writes them as `\x`, `\u` or `\U` escapes.
- Calls.Call: given a `Tool` object, `call` skips `self.tools` and goes straight to the
  tool's servlet object. That path is `Calls.CallTool`, with the servlet passed as `owner`.
  Objects are compared by value, so a servlet object equal to the cached one counts as the
  cached one.
- Concurrency and async scheduling: the code is sequential.
- The client's invariant across a chat: the chat modules take `call` as a parameter, so they
  do not restate that it keeps the client valid. `Calls.Call` and `LegacyCalls.Call` state it
  for the client's own `call`.
