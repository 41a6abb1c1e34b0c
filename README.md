# A verified model of the CemTemChat agent core

CemTemChat is a chat agent for a field-sales back office. A user writes to it from
Telegram or from a Socket.IO web client. The agent sends the conversation to a
language model through OpenRouter. It runs the tool calls the model asks for
against a FastMCP tool server, and it feeds each result back until the model gives
a final answer. In the Socket.IO engine a call whose arguments decode to something
other than a JSON object aborts the turn, and the calls after it in that round are
not run; in the Telegram engine every failure becomes the call's `tool` message.

Writes (visit reports, sales orders) take two turns. In the first turn the model
embeds the write's JSON payload between `[TOOL_ARGS_JSON]` markers. The agent
stores the payload and the write tool it picks, and it shows the answer with the
block cut out. In the second turn, a "Y" from the user runs the stored write.

This project models, in Dafny:

- the round-trip loop shared by both engines (`RoundTrip`);
- the Socket.IO engine of chat_service.py (`ChatService`);
- the older Telegram engine of telegram_bot.py, with its ID rescue (`TelegramBot`);
- the staged writes of post_handler.py (`PostHandler`);
- the API-key check, response extraction and client singletons of ai_services.py
  (`AiServices`);
- the CORS origin parsing, connection table and handlers of
  flask_socket_server.py (`SocketServer`);
- the outbound text rule of web_telegram_forward.py (`TelegramForward`).

Shared modules supply the pieces these need:

- `Wrappers`: Option and Result.
- `Json`: decoded JSON values. Objects are ordered entry lists, as Python dicts
  keep insertion order.
- `Text`: the Python string builtins used (`strip`, `upper`, `title`, `replace`,
  `split`, substring search, digits).
- `Conversation`: messages, tool calls, the per-user state dictionary as a class
  `UserState`, and the argument clean-up.

Everything outside the process is a function-typed parameter:

- the completion provider;
- the MCP tool gateway;
- `json.loads` and `json.dumps`;
- the HTTP POST;
- MCP client enter and exit.

A provider or gateway receives the history so far. The history grows every round,
so such a function can play any sequence of answers and failures.

The source's `while True` loops take a `fuel` argument. One unit of fuel is one
round of tool calls, and `OutOfFuel` / `Exhausted` / `Unfinished` mark a run the
source would still be looping in.

chat_service.py imports `check_and_store_post_request_core` and
`execute_pending_post_core`, which post_handler.py does not define. They are
modelled by the post_handler.py logic they evidently stand for:

- the staging half of `handle_post_confirmation_request`;
- the pop-and-execute half of `handle_post_execution_reply`, without the "Y" test,
  which `confirm_post` does not make.

## Model

| member | source | states |
|---|---|---|
| Conversation.Sanitize | chat_service.py:58-59 | an entry is kept exactly when its key is not one of the ten metadata keys and its value is not null; nothing is invented and the result is never longer |
| Conversation.SanitizeConcat | chat_service.py:59 | the clean-up works entry by entry and keeps the order of what it keeps |
| Conversation.SanitizeIdempotent | chat_service.py:59 | cleaning cleaned arguments changes nothing |
| Conversation.SanitizeExample | telegram_bot.py:100-116 | an echoed `inputSchema` and a null argument are dropped, a real argument is kept |
| RoundTrip.RunCalls | chat_service.py:50-75 | the calls are answered in the provider's order, one `tool` message per call carrying that call's id, appended after the existing history; the round stops early exactly when a call raises |
| RoundTrip.RunCallsContents | chat_service.py:50-75 | each `tool` message carries what the step gave for its call on the history before it, and an early stop is the error the step raised for the next call |
| RoundTrip.RunCallsRaisedStops | chat_service.py:59 | once a call has raised, later calls of the round are never run |
| RoundTrip.RunCallsTotal | telegram_bot.py:94-174 | when no call can raise, every call of the round gets its `tool` message |
| RoundTrip.RunRounds | chat_service.py:32-47 | the history never shrinks; a final answer adds at least the assistant message and has no tool calls; a run with no fuel left is exactly the unchanged history |
| RoundTrip.RunRoundsExtends | chat_service.py:32-47 | the history only grows at its end, and a final answer is the last message and has no tool calls |
| RoundTrip.RoundCorrelated | chat_service.py:38-75 | one round keeps every `tool` message answering, by position, a call of the assistant message before it |
| RoundTrip.RunRoundsCorrelated | chat_service.py:32-76 | across a whole turn no `tool` message is fabricated: each answers the call at its position in the preceding assistant message |
| PostHandler.FindBlock | post_handler.py:14 | a match lies inside the text, at or after the search start, with the opener before the closer |
| PostHandler.FindBlockLeftmostLazy | post_handler.py:14 | the match is a real opener/closer pair, it is the leftmost, its group stops at the first closer, and no match is missed |
| PostHandler.RemoveBlocks | post_handler.py:101 | removing blocks never lengthens the text, shortens it when a block exists, and leaves it unchanged when none does |
| PostHandler.RemoveBlocksNoMatch | post_handler.py:101 | text in which the pattern matches at no position comes back unchanged |
| PostHandler.LeftmostMatchFound | post_handler.py:67 | the leftmost match, whose group ends at the first closer after its opener, is the match the search reports |
| PostHandler.RemoveBlocksLeftmost | post_handler.py:101 | stated on the matches alone: the text before the leftmost match is kept, the match is dropped whole, and the substitution goes on after it |
| PostHandler.EmbeddedBlockFound | post_handler.py:67-69 | a block placed after text without an opener, with a body without a closer, is the block found |
| PostHandler.EmbeddedBlockCaptured | post_handler.py:71 | the group of that block is exactly its body |
| PostHandler.EmbeddedBlockRemoved | post_handler.py:101 | removing that block leaves exactly the text before and after it |
| PostHandler.Member | post_handler.py:80-88 | `key in payload` is key membership for a dict, element membership for a list and a substring test for a string, and raises for any other decoded value |
| PostHandler.Classify | post_handler.py:80-93 | for a dict, a list or a string payload alike: TVR exactly when both TVR names are `in` it; else DVR exactly when both DVR names are; else the sales-order tool, with or without its fields; scalars raise |
| PostHandler.ClassifyListPayload | post_handler.py:80-81 | a list payload naming both TVR fields goes to the TVR tool |
| PostHandler.ClassifyExamples | post_handler.py:80-93 | a payload carrying every signature goes to the TVR tool; one with only the sales-order fields goes to the sales-order tool |
| PostHandler.Stage | post_handler.py:67-109 | no block or an undecodable group stages nothing; a decoded group is classified; a staged write names a write tool and shows the stripped text with blocks removed, shorter than the answer |
| PostHandler.StageEmbedded | post_handler.py:67-102 | round trip: an object embedded in markers is staged as that object, and the user sees the surrounding text, stripped |
| PostHandler.HandleConfirmationRequest | post_handler.py:60-109 | both pending keys are written together on a staged write; otherwise the state is untouched and the answer is returned unchanged, or the classification error escapes |
| PostHandler.IsConfirmation | post_handler.py:27 | a confirmation strips to a single character |
| PostHandler.ConfirmationIsY | post_handler.py:27-28 | only a lone "Y" or "y", with any surrounding whitespace, confirms |
| PostHandler.SubmittedHeader | post_handler.py:43 | the header is the check mark and `**`, the tool name with each underscore a space and every other character kept up to case, then " successfully submitted!**" and a blank line |
| PostHandler.SubmissionReport | post_handler.py:42-52 | a success is the header followed by the pretty-printed result; a failure is "Submission Failed for" with the tool name, a colon, a newline and the error |
| PostHandler.HeaderCapitalisesWords | post_handler.py:43 | the success header shows each underscore of a snake-case tool name as a space and capitalises the first letter of every word |
| PostHandler.Execution | post_handler.py:35-55 | a write runs only for a truthy payload and a non-empty tool name, and then counts as attempted whether the gateway succeeds or raises, with the matching report |
| PostHandler.ExecutePending | post_handler.py:31-55 | both pending keys are popped whatever happens, and the stored write runs as `Execution` says |
| PostHandler.HandleExecutionReply | post_handler.py:19-58 | anything but "Y" touches nothing; a "Y" empties the pending slot, and a reply is sent only when a stored write was attempted |
| PostHandler.ConfirmTwice | post_handler.py:31-32 | a second "Y" with nothing newly staged attempts nothing |
| ChatService.RawArguments | chat_service.py:51 | the raw text is never empty: missing or empty arguments read as "{}", anything else is kept as given |
| ChatService.DecodedArguments | chat_service.py:52-55 | undecodable or missing arguments become an empty object |
| ChatService.CallArguments | chat_service.py:52-59 | the cleaned arguments are the kept entries of a decoded object; a decoded non-object raises the AttributeError of `.items()` |
| ChatService.CallContent | chat_service.py:61-75 | a gateway result is serialised; a gateway failure becomes "Error executing tool <fn>: <e>"; only the argument error escapes |
| ChatService.ChatRoundCompletes | chat_service.py:50-75 | when all arguments decode to objects (or fail to decode), the gateway cannot cut a round short |
| ChatService.FinalText | chat_service.py:43 | the final text is the content when non-empty and "..." otherwise |
| ChatService.Seeded | chat_service.py:26-27 | an existing history gets the user's text appended; a missing one starts with the system prompt |
| ChatService.AnswerCalls | chat_service.py:50-75 | the loop appends to the stored history in place exactly what `RunCalls` prescribes and reports the escaping error |
| ChatService.Finish | chat_service.py:42-47 | a final answer goes through staging: the pending keys change only when a write is staged |
| ChatService.TurnOutcome | chat_service.py:42-47 | the user waits for a confirmation exactly when a final answer staged a write; a turn fails exactly when the loop or the staging raised |
| ChatService.Handle | chat_service.py:17-76 | the stored history ends as the reference loop's history even when the turn raises; the result is "Model returned nothing", the raised error, or the staged or plain final text, with the awaiting flag set exactly on staging |
| ChatService.ConfirmPost | chat_service.py:78-82 | the pending write is popped and run without a "Y" test; the reply is its report or "Nothing to submit." |
| TelegramBot.KeywordDigits | telegram_bot.py:61 | the first alternative of the ID pattern captures a non-empty run of digits after a keyword starting at a letter |
| TelegramBot.DigitsAfterKeywordFound | telegram_bot.py:61 | after a keyword, spaces, an optional `#` and spaces, a digit starts the captured group, which is the whole digit run from there |
| TelegramBot.DigitsAfterKeywordNone | telegram_bot.py:61 | no capture after a keyword means no digit follows it across spaces and at most one `#` |
| TelegramBot.KeywordDigitsFirst | telegram_bot.py:61 | the alternatives are tried in the pattern's order: the capture comes from the first keyword that matches with digits after it |
| TelegramBot.KeywordDigitsNone | telegram_bot.py:61 | the first alternative fails at a position exactly when no keyword matches there with digits after it |
| TelegramBot.IdMatchFrom | telegram_bot.py:61 | a search result is a non-empty run of digits |
| TelegramBot.TextId | telegram_bot.py:61-68 | the rescued ID is the decimal value of the captured digits, and is absent only without a match or past `int()`'s 4300-digit limit |
| TelegramBot.KeywordPrecedence | telegram_bot.py:61 | a keyword followed by digits anywhere wins over trailing digits: the match comes from the first alternative at or before that keyword |
| TelegramBot.TrailingDigits | telegram_bot.py:61 | the second alternative `(\d+)\s*$` at a position: it matches exactly when a non-empty digit run there is followed only by whitespace, and captures that run |
| TelegramBot.TrailingIdOnly | telegram_bot.py:61 | with no keyword match, the ID is the digit run that ends the text |
| TelegramBot.RescueKey | telegram_bot.py:126-131 | a key exists exactly for the five `*_by_id` name fragments, and `user_by_id` is tested first |
| TelegramBot.RescueKeysOfLookups | telegram_bot.py:119-131 | the five lookup tools get the keys `user_id`, `dealer_id`, `reportId`, `reportId` and `orderId` |
| TelegramBot.FirstIntLike | telegram_bot.py:136-140 | the first value that `isinstance(v, int)` accepts, bools included, or none when no value is one |
| TelegramBot.FirstIntArgument | telegram_bot.py:136-140 | the loop over the argument values returns exactly `FirstIntLike` |
| TelegramBot.FirstIntAt | telegram_bot.py:136-140 | the first int-like position determines the result |
| TelegramBot.Rescued | telegram_bot.py:119-153 | non-lookup tools and non-empty arguments pass through; a rescued lookup gets one argument under its key; the only failure is the missing-ID error for a lookup left empty |
| TelegramBot.RescuedSource | telegram_bot.py:133-146 | the injected ID is the first truthy int-like raw argument, else the text's ID, else the call fails |
| TelegramBot.FalsyArgumentFallsBack | telegram_bot.py:143 | a raw argument of 0 or `False` loses to the ID found in the text |
| TelegramBot.BotArguments | telegram_bot.py:96-153 | null arguments raise the TypeError of `json.loads`; an undecodable text raises its decode error; a decoded non-object raises the AttributeError of `.items()`; a decoded object's entries are cleaned and go through the ID rescue, whose result is what reaches the gateway |
| TelegramBot.BotContent | telegram_bot.py:96-174 | an argument or rescue failure and a gateway failure both become "Error executing tool <fn>: <e>"; a gateway result is serialised |
| TelegramBot.MissingIdReported | telegram_bot.py:150-174 | a lookup still without arguments never reaches the gateway; its `tool` message carries the missing-ID error |
| TelegramBot.BotRoundCompletes | telegram_bot.py:94-174 | no single call can end a Telegram turn: every call of a round gets its `tool` message |
| TelegramBot.ReplyFor | telegram_bot.py:176-187 | the reply is the last message's content when truthy, the no-answer text when empty, and the apology after any exception, a falsy completion included |
| TelegramBot.AnswerBotCalls | telegram_bot.py:94-174 | the loop appends exactly what `RunCalls` prescribes and never raises |
| TelegramBot.Converse | telegram_bot.py:82-187 | the loop and its reply follow the reference loop `RunRounds` on the local history: the reply is what `ReplyFor` gives for the way it ended |
| TelegramBot.MessageHandler | telegram_bot.py:54-187 | empty text gets no reply; otherwise the reply is what `ReplyFor` gives for the reference loop run on a fresh history with the text's ID |
| AiServices.ValidateKey | ai_services.py:58-66 | a blank key is refused as missing; a key with a character above code point 127 is refused as non-ASCII; otherwise the trimmed key is returned |
| AiServices.ValidateKeyIdempotent | ai_services.py:59-66 | a validated key validates to itself |
| AiServices.BuildSession | ai_services.py:84-88 | the session's Authorization header is "Bearer " and the trimmed key; a key error stops the build |
| AiServices.RequestBody | ai_services.py:108-114 | the request names the DeepSeek model and sends exactly two messages: the system prompt, then the user's text |
| AiServices.ExtractContent | ai_services.py:126-138 | a non-dict body, first choice or `message` raises the AttributeError of `.get`; a missing, falsy or non-list `choices` is refused; otherwise the result is the `content` of the first choice's message, refused as missing exactly when it is absent or null |
| AiServices.ExtractResponseWith | ai_services.py:132-138 | round trip: whatever other choices follow, extraction returns the content the first choice carries, and refuses a null one |
| AiServices.ExtractWithoutMessage | ai_services.py:132-135 | a first choice without `message` reads as `{}`, so the content is reported missing |
| AiServices.Services.SetupAiService | ai_services.py:91-98 | the session is built only when none exists; later calls return the same session; a failed build leaves it unset |
| AiServices.Services.GetAiCompletion | ai_services.py:100-149 | before set-up the call is refused; otherwise the response body goes through `ExtractContent` and every error propagates |
| AiServices.Services.SetupMcpClient | ai_services.py:161-172 | an existing client is returned without another being made; otherwise one is connected to the given URL, or the default, and kept unless entering it raises |
| AiServices.Services.CloseMcpClient | ai_services.py:174-182 | the client is always unset afterwards, even when leaving it raises, and nothing happens without one |
| AiServices.Services.EnsureMcp | ai_services.py:184-187 | succeeds exactly when a client exists, and then returns it |
| AiServices.Services.McpCallTool | ai_services.py:201-202 | a tool call goes through the connected client, and is refused without one |
| AiServices.SetupAiServiceTwice | ai_services.py:92-98 | set-up is idempotent: the second call returns the first call's session |
| AiServices.SetupMcpClientTwice | ai_services.py:165-167 | connecting twice yields one client, whatever URL the second call names |
| AiServices.CloseThenCall | ai_services.py:176-187 | after closing, a tool call is refused |
| SocketServer.Origins | flask_socket_server.py:14 | every origin is non-empty and trimmed, and there are never more origins than pieces |
| SocketServer.OriginsKeep | flask_socket_server.py:14 | every non-blank piece contributes its trimmed text, at a position the lemma returns |
| SocketServer.OriginsSource | flask_socket_server.py:14 | every origin is the trimmed text of some piece |
| SocketServer.OriginsEmpty | flask_socket_server.py:14-16 | no origin survives exactly when every comma-separated piece is blank |
| SocketServer.OriginsOfTrimmed | flask_socket_server.py:14 | trimmed, non-blank pieces pass through unchanged |
| SocketServer.AllowedOriginsOfJoin | flask_socket_server.py:14 | round trip: a list of clean origins joined with commas reads back as the same list |
| SocketServer.CheckedOrigins | flask_socket_server.py:14-16 | loading fails with the CORS error exactly when every piece is blank, and otherwise yields the parsed origins |
| SocketServer.AllowedOrigins | flask_socket_server.py:14 | every origin is trimmed and holds no comma, and there is none exactly when every comma-separated piece is blank |
| SocketServer.IncomingText | flask_socket_server.py:62-65 | a truthy non-dict payload raises the AttributeError of `.get`; missing, non-string or blank text is rejected; a non-blank `text` string is accepted, and only it |
| SocketServer.TurnEvent | flask_socket_server.py:78-85 | an answer is emitted as a message with its awaiting flag; a failure as "server error: " and the error |
| SocketServer.Server.SetToolsCache | flask_socket_server.py:35-37 | a missing or empty tool list is cached as `[]` |
| SocketServer.Server.Connect | flask_socket_server.py:47-53 | a fresh state holding only the system prompt and the current tool cache replaces any earlier one for that connection; other connections are untouched |
| SocketServer.Server.Disconnect | flask_socket_server.py:56-58 | the connection is removed; an unknown one is a no-op |
| SocketServer.Server.StateFor | flask_socket_server.py:74-77 | an existing state is never replaced; a missing one is seeded like a new connection |
| SocketServer.Server.OnSendMessage | flask_socket_server.py:61-87 | rejected text emits "empty text" and never reaches the table or the engine; accepted text is trimmed and runs one chat turn on the connection's state, seeded when missing: the stored history becomes the reference loop's, the tools stay, the pending keys change only on a staged write, the emitted event is the turn's, and no other connection changes |
| SocketServer.Server.OnConfirmPost | flask_socket_server.py:90-108 | the connection's pending write is popped and run; the reply is its report or "Nothing to submit."; its history and tools stay, and no other connection changes |
| SocketServer.Server.Start | flask_socket_server.py:113-118 | only the first call binds the server |
| SocketServer.StartTwice | flask_socket_server.py:113-118 | a second start is a no-op |
| SocketServer.SendAfterDisconnect | flask_socket_server.py:58-77 | a message after a disconnect runs on a fresh history seeded with the system prompt |
| TelegramForward.OutboundText | web_telegram_forward.py:19-21 | empty or whitespace-only text is refused; the sent text is non-empty, at most 4000 characters, starts with no whitespace, is a prefix of the trimmed input whose length is the trimmed length capped at 4000, and equals it exactly when that fits |
| TelegramForward.OutboundOfTrimmed | web_telegram_forward.py:19-21 | a trimmed text within the limit is sent exactly as given |

## Left out

- Transport and I/O: Telegram replies and chat actions, Socket.IO `emit` of the
  typing status and the `ready` event, background tasks, `asyncio`, process
  start-up in run.py. A handler's emitted result is its return value.
- Concurrency: the `asyncio.Lock` around the MCP client and the worker threads.
  Each connection's turn is modelled as running alone.
- The HTTP client: retries, pool sizes, timeouts, `raise_for_status` and decoding
  the body are inside the `Poster` oracle. Only the session's three headers are
  modelled.
- The FastMCP client: `Client` enter and exit are oracles. `mcp_ping`,
  `mcp_list_tools`, `mcp_list_resources` and `mcp_list_prompts` are one-line
  forwards like `mcp_call_tool` and are not modelled separately.
- `json.loads`, `json.dumps` and `pydantic_json_default` are oracles, and no JSON
  parser is verified. The model assumes a decoded object has no duplicate keys.
- `_safe_ascii`, logging and `print`.
- agent_server.py and ai_prompt_helper.py are not part of this model.
- `get_ai_completion` is called by both engines with `(messages, tools)` but
  declares one parameter. The engines use an abstract provider, so the mismatch
  is not modelled.
- The source loops forever when the model keeps requesting tools. The fuel bound
  stands in for that, and a run out of fuel is a modelling artifact.
- Case mapping covers ASCII letters only, and `\d` only ASCII digits. Under
  IGNORECASE, Python also lets U+0130, U+0131, U+017F and U+212A match keyword
  letters; the model does not.
- A tool call without an `id`, `function`, `name` or (in telegram_bot.py)
  `arguments` key raises a KeyError in the source. The model has no such calls.
  A missing `arguments` key in telegram_bot.py is treated like a JSON null.
- AiServices.Services.SetupMcpClient: the `FASTMCP_URL` environment override of
  the default URL is not modelled; the default is the built-in URL.
- AiServices.Services.SetupAiService: the `OPENROUTER_BASE_URL` returned beside
  the session is not modelled.
- SocketServer.Server.OnSendMessage: exceptions raised by the socket layer itself
  are not modelled, only those of the chat turn.
- ChatService.Handle: an exception from the completion provider is reported as
  the turn failing; the socket worker turns it into the "server error" event.
- AiServices.ValidateKey: the environment lookup `OPENROUTER_API_KEY or ""` is
  not modelled; the key arrives as a string.
