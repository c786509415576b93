# MCP tool transport and dispatch, modelled in Dafny

This project models the parts of a collection of MCP (Model Context Protocol) demo
programs that carry real logic. MCP is a JSON-RPC-shaped protocol that language-model
clients use to discover and call tools offered by a subprocess. The modelled parts are:

- **Length-prefixed framing** (`framing.dfy`, module `Framing`). `send_message` writes
  `Content-Length: N`, a blank line and the body. `read_message` reads `Key: value`
  header lines up to a blank line, then reads N characters. The stream is a
  `Streams.TextStream`: a text with a cursor, read by `ReadLine` and `Read`.
- **Newline translation of text pipes** (`streams.dfy`, module `Streams`). Both clients
  open their server with `Popen(..., text=True)`, so what the client reads is the
  universal-newline translation `Streams.Translated` of what the server wrote: "\r\n"
  and a lone '\r' each arrive as '\n', and read(n) counts the translated characters.
  The calculator server reads `sys.stdin`, which on Linux splits lines at '\n' only and
  translates nothing.
- **The line-delimited calculator server** (`calculator_server.dfy`, module
  `CalculatorServer`). It has a whitelist check in front of an abstract `eval`, the
  `tools/list` / `tools/call` dispatcher, and the JSON-RPC error codes -32601 and -32700.
  Its `run` loop prints an initialization result and then one reply per non-blank input
  line.
- **The queue-polling client** (`queue_client.dfy`, module `QueueClient`). It covers:
  - the `connect_server` handshake;
  - bounded polling loops over a sequence of poll outcomes;
  - the server registry as a class, `QueueClient.GeminiMCPClient`;
  - `call_tool` with its constant request id 3;
  - the flattened tool catalogue;
  - the `TOOL_CALL:` marker slicing of `chat`;
  - `cleanup`;
  - the writer thread's line framing.
- **A cross-file lemma** (`handshake.dfy`, module `Handshake`). The calculator server,
  driven by that client's handshake, can never be registered by the client.
- **The SDK-session client** (`session_client.dfy`, module `SessionClient`). It covers the
  launcher choice, the session guards, and the last-brace `TOOL_CALL:` slicing with its
  fallbacks.
- **The four genai/ollama client variants.** The pieces they share live in
  `sdk_clients.dfy` (module `SdkClients`): the script-extension check, the schema
  projection, two `print_candidates` printers and the generic chat loop. Each variant has
  its own module:
  - `genai_parsing_client.dfy`: `parse_answer` recursion, where `pre_query` becomes the
    next query.
  - `genai_aggregating_client.dfy`: `chat_loop` runs every function call and asks the model
    once more.
  - `ollama_genai_client.dfy`: `parse_answer` recursion that keeps the original query.
  - `genai_relisting_client.dfy`: tools are listed again for every query.
- **The tool registry** whose contract the Ollama tool-manager tests fix
  (`tool_manager.dfy`, class `ToolManager.OllamaToolManager`).
- **The Gemini-CLI tool dispatcher** (`gemini_cli_server.dfy`, module `GeminiCliServer`).
  It maps a tool name and arguments to an argv with defaults and a timeout, and maps a
  process outcome to a result. The two copies of this server are byte-identical, so one
  model serves both.

Shared pieces:

- `common.dfy` holds `Option`/`Result` and the Python string operations the code relies
  on: `strip`, `split(c, 1)`, `find`, `rfind`, slicing, `replace`, `int()`, `str()` and
  line splitting.
- `json.dfy` holds JSON values (objects are maps), Python exceptions, and dict and list
  access that can raise.

External pieces are parameters of the model, not implementations:

- `json.dumps` and `json.loads`: `encode: Json -> string` and
  `decode: string -> Option<Json>`;
- `eval`: `Evaluator`, whose value is either its `str()` text or the message of the
  ValueError that `str()` raises on it (an int longer than `sys.int_max_str_digits`);
- the language model (`Generate`, `Model`);
- the MCP SDK session (`Sdk`, `Opener`, `Reader`);
- process spawning and `subprocess.run` (`Runner`);
- the wording of Python's built-in exception messages and `str()` of containers
  (`Runtime`).

Behaviour of the code worth noting:

- Responses are not matched by id. The client takes the first decodable line, and every
  tool call uses id 3.
- `parse_answer` recursion has no depth bound. The `fuel` parameter is a proof device,
  and running out of it is its own outcome (`OutOfFuel`); it is never a source
  behaviour.
- Only the first function call is executed by `parse_answer`. Later calls are not folded
  into the context.
- A header line without `:` makes `read_message` raise. It does not resynchronise.
- The initialization reply is accepted whatever it says.
- The SDK-session client never rejects a script extension.
- The top-level `client_geni.py` lists the tools again for every query.

## Model

| member | source | states |
|---|---|---|
| Streams.TextStream.ReadLine | python-mcp-server/src/server/client.py:16 | readline() on the text as the reader sees it returns the text up to and including the next newline, or the rest; it returns "" exactly at the end, and the cursor moves past what was returned |
| Streams.TextStream.Read | python-mcp-server/src/server/client.py:26 | read(n) returns at most n characters of the text as the reader sees it (all that remain for negative n, fewer at the end) and advances the cursor by what it returned |
| Streams.ReadEnd | python-mcp-server/src/server/client.py:26 | where read(n) leaves the cursor: the end for negative n, otherwise n further on or the end, whichever comes first |
| Streams.OutStream.Write | python-mcp-server/src/server/client.py:8 | the pipe's text grows by exactly what was written |
| Streams.TranslatedHasNoCr | python-mcp-server/src/server/client.py:31-38 | a pipe opened with text=True never shows its reader a '\r' |
| Streams.TranslatedPlain | python-mcp-server/src/server/client.py:31-38 | text without '\r' arrives through such a pipe unchanged |
| Streams.TranslatedAppend | gemini_cli_mcp/src/subprocess/mcp_client.py:179-185 | the pipe translates what is written piece by piece, unless a piece ends in a '\r' that the next piece's '\n' joins |
| Streams.LoneCarriageReturn | gemini_cli_mcp/src/subprocess/mcp_client.py:179-185 | a lone '\r' arrives as '\n' |
| Common.Strip | python-mcp-server/src/server/client.py:17 | str.strip(): the result is no longer than the input and neither begins nor ends with whitespace |
| Common.StripEmptyIffAllSpace | python-mcp-server/src/server/client.py:17 | `not line.strip()` holds exactly for whitespace-only lines |
| Common.StripPadded | gemini_cli_mcp/src/subprocess/mcp_client.py:117 | stripping whitespace padding around trimmed text gives that text back |
| Common.SplitOnce | python-mcp-server/src/server/client.py:19 | split(c, 1) fails exactly when c is absent; otherwise the text is key + c + value with no c in the key |
| Common.SplitOnceAt | python-mcp-server/src/server/client.py:19 | the split happens at the first c, so every later c stays in the value |
| Common.ParseDecimal | python-mcp-server/src/server/client.py:22 | int() of str(n) gives n back |
| Common.ParseInt | python-mcp-server/src/server/client.py:22 | int() accepts only text with something other than whitespace; None stands for its ValueError |
| Common.DecimalDigit | python-mcp-server/src/server/client.py:22 | a digit int() accepts has a value below 10, and an ASCII digit's value is its distance from '0' |
| Common.ParseDigitGroup | python-mcp-server/src/server/client.py:22 | int() of a digit group that begins and ends with an ASCII digit, single underscores allowed between digits, is the value of its digits |
| Common.ArabicIndicDigit | python-mcp-server/src/server/client.py:22 | int() reads a digit of another script by its value: ARABIC-INDIC DIGIT FIVE gives 5 |
| Common.NatToDecimal | python-mcp-server/src/server/client.py:7 | str(n) of a natural number is a non-empty string of digits |
| Common.IndexOf | gemini_cli_mcp/src/subprocess/mcp_client.py:394-395 | find() returns -1 or an occurrence at or after the start, and no earlier occurrence exists |
| Common.IndexOfAt | gemini_cli_mcp/src/subprocess/mcp_client.py:394-395 | find() returns the first occurrence at or after the start |
| Common.LastIndexOf | gemini_cli_mcp/src/fastmcp/mcp_client3.py:176 | rfind(c) returns -1 or the index of a c with no c after it |
| Common.Slice | gemini_cli_mcp/src/subprocess/mcp_client.py:396-398 | Python slicing clamps its bounds: an in-range slice is the subsequence, and a reversed one is empty |
| Common.RemoveAll | gemini_cli_mcp/src/fastmcp/mcp_client3.py:182 | replace(pat, "") never lengthens the text |
| Common.RemoveAllWithout | gemini_cli_mcp/src/fastmcp/mcp_client3.py:182 | replace(pat, "") leaves text without pat unchanged |
| Common.Join | src/client/client_geni.py:119 | sep.join of no parts is "" and of a single part is that part |
| Common.JoinSnoc | src/client/client_geni.py:119 | joining one more part appends the separator and that part |
| Common.LineEnd | gemini_cli_mcp/src/subprocess/mcp_server.py:140 | a line read from position i ends past i (unless at the end) and never beyond the text |
| Common.LineEndShape | gemini_cli_mcp/src/subprocess/mcp_server.py:140 | a line holds a newline only as its last character, and only the last line may lack one |
| Common.Lines | gemini_cli_mcp/src/subprocess/mcp_server.py:139-144 | read_lines yields only non-empty lines |
| Common.LinesCover | gemini_cli_mcp/src/subprocess/mcp_server.py:139-144 | the lines read, concatenated, are exactly the rest of the text |
| Common.NewlineFramedSnoc | gemini_cli_mcp/src/subprocess/mcp_client.py:148 | writing one more message appends that message and a newline |
| Common.NewlineFramedLines | gemini_cli_mcp/src/subprocess/mcp_client.py:148 | messages without newlines, written one per line, are read back one line each, in order |
| Common.NewlineFramedAppend | gemini_cli_mcp/src/subprocess/mcp_client.py:148 | the writer's text for two runs of messages is the text of the first run, then that of the second |
| JsonValues.In | gemini_cli_mcp/src/subprocess/mcp_client.py:321 | `needle in x` tests keys of a dict and items of a list, and raises TypeError on None, booleans and integers |
| JsonValues.Subscript | gemini_cli_mcp/src/subprocess/mcp_client.py:326 | x[key] on a dict is the value or KeyError; a list indexed by a string raises TypeError |
| JsonValues.Get | gemini_cli_mcp/src/subprocess/mcp_server.py:59 | get(key, default) fails exactly on non-dicts and returns the stored value or the default |
| JsonValues.Len | gemini_cli_mcp/src/subprocess/mcp_client.py:323 | a length is positive exactly when the value is truthy |
| Framing.SendMessage | python-mcp-server/src/server/client.py:5-9 | the pipe receives exactly "Content-Length: " + str(len(body)) + CRLF CRLF + body, where body is json.dumps(payload) |
| Framing.FrameIsFramed | python-mcp-server/src/server/client.py:7 | the frame is the Content-Length line, "\r\n", another "\r\n", then the body |
| Framing.FrameTranslated | python-mcp-server/src/server/client.py:5-38 | through the text=True pipe, each "\r\n" of the frame arrives as "\n", and a body without '\r' arrives unchanged |
| Framing.ScanHeaders | python-mcp-server/src/server/client.py:14-20 | the header loop never moves the cursor backwards nor past the end |
| Framing.ReadMessage | python-mcp-server/src/server/client.py:12-27 | on the text as the reader sees it, the result and the cursor are those of the specification ReadSpec: the header loop, then the length check, then a length-bounded read |
| Framing.AfterHeadersOutcomes | python-mcp-server/src/server/client.py:22-27 | each outcome by case: raises on a missing colon and on a non-integer length; None exactly for a missing or zero length; otherwise it reads at most that many characters after the headers and decodes them |
| Framing.ScanStopsAtBlank | python-mcp-server/src/server/client.py:14-20 | header lines followed by a blank line give exactly the headers those lines define, each split at its first ':' and stripped; the cursor stops just past the blank line, so no later line is consumed |
| Framing.LastValueWins | python-mcp-server/src/server/client.py:19-20 | a repeated key keeps its last value |
| Framing.KeyUntouched | python-mcp-server/src/server/client.py:19-20 | lines for other keys leave a header's value as it was |
| Framing.NoColonRaises | python-mcp-server/src/server/client.py:15-19 | a non-blank header line without ':' makes read_message raise, after consuming that line |
| Framing.ReadsMissingColon | python-mcp-server/src/server/client.py:19 | once the header loop stops at a line without ':', read_message raises |
| Framing.ReadsZeroLength | python-mcp-server/src/server/client.py:22-24 | a missing or zero Content-Length returns None and reads no body |
| Framing.ReadsBody | python-mcp-server/src/server/client.py:26-27 | a non-zero length consumes that many characters as the body and leaves the rest for the next frame |
| Framing.HeaderScan | python-mcp-server/src/server/client.py:14-20 | a one-field header block followed by a blank line scans to that single entry, ending after the blank line |
| Framing.FrameScan | python-mcp-server/src/server/client.py:7-22 | the header of a frame scans to a Content-Length that int() reads back as the body's length |
| Framing.RoundTrip | python-mcp-server/src/server/client.py:5-27 | reading a stream that begins with a frame returns its body decoded, with the cursor just past it; this holds for the frame as written, with "\r\n", and as a text=True reader sees it, with "\n" |
| Framing.EmptyBodyReadsNone | python-mcp-server/src/server/client.py:5-24 | a frame with an empty body reads as None and consumes the whole frame, with "\r\n" or with "\n" line ends |
| Framing.SendThenRead | python-mcp-server/src/server/client.py:5-38 | read_message, through the text=True pipe, on what send_message wrote returns the payload, for a payload whose non-empty encoding holds no raw '\r' and decodes back to it |
| CalculatorServer.Calculate | gemini_cli_mcp/src/subprocess/mcp_server.py:36-47 | every failure of calculate carries the "계산 오류: " prefix |
| CalculatorServer.CalculateRejects | gemini_cli_mcp/src/subprocess/mcp_server.py:40-42 | a character outside "0123456789+-*/.() " is rejected with the wrapped whitelist message before eval runs: any two evaluators give the same answer |
| CalculatorServer.CalculateAdmits | gemini_cli_mcp/src/subprocess/mcp_server.py:44-47 | a whitelisted expression goes to eval; its value is the result and its failure is rewrapped with the prefix |
| CalculatorServer.CallToolOutcomes | gemini_cli_mcp/src/subprocess/mcp_server.py:57-78 | a name other than "calculator" gives -32601; a calculator failure, including arguments without .get, gives -1 with the exception's text ("계산 오류: " and the cause when calculate raised); a value whose str() raises, such as an int over the 4300-digit limit, gives -1 with that ValueError's text and no prefix; a value that formats gives exactly one text item "계산 결과: expr = value" |
| CalculatorServer.ExpressionDefault | gemini_cli_mcp/src/subprocess/mcp_server.py:59 | a missing expression behaves as "" |
| CalculatorServer.ParamsDefault | gemini_cli_mcp/src/subprocess/mcp_server.py:83 | missing params behave as {} |
| CalculatorServer.ArgumentsDefault | gemini_cli_mcp/src/subprocess/mcp_server.py:89 | missing arguments behave as {} |
| CalculatorServer.ListToolsRouted | gemini_cli_mcp/src/subprocess/mcp_server.py:82-86 | tools/list is answered with the catalogue |
| CalculatorServer.OtherMethodsNotFound | gemini_cli_mcp/src/subprocess/mcp_server.py:85-95 | every method other than tools/list and tools/call, including initialize and a missing method, gets -32601 naming the method |
| CalculatorServer.RepliesCarryNoId | gemini_cli_mcp/src/subprocess/mcp_server.py:49-124 | neither the init result, nor the parse error, nor any handler reply has an id field |
| CalculatorServer.NotInit | gemini_cli_mcp/src/subprocess/mcp_server.py:80-95 | no handler reply equals the initialization result |
| CalculatorServer.EncodedAppend | gemini_cli_mcp/src/subprocess/mcp_server.py:118 | encoding two runs of replies gives the first run's texts, then the second's |
| CalculatorServer.PrintedAppend | gemini_cli_mcp/src/subprocess/mcp_server.py:118-119 | printing replies one after another prints the lines of the first run, then those of the second |
| CalculatorServer.Run | gemini_cli_mcp/src/subprocess/mcp_server.py:97-126 | the output is the init result, then the replies of the line loop; the input is read to its end unless a request raises |
| CalculatorServer.RequestLoop | gemini_cli_mcp/src/subprocess/mcp_server.py:113-126 | each reply is printed after those printed before, as the specification Serve gives for the lines read |
| CalculatorServer.SendOne | gemini_cli_mcp/src/subprocess/mcp_server.py:118-119 | one printed reply extends the output by that reply's line |
| CalculatorServer.ServeCons | gemini_cli_mcp/src/subprocess/mcp_server.py:113-126 | a blank line is skipped, a raising request ends the loop, and a reply precedes the replies to later lines |
| CalculatorServer.NonBlank | gemini_cli_mcp/src/subprocess/mcp_server.py:114 | the lines kept are non-blank and no more than the lines read |
| CalculatorServer.ServeReplies | gemini_cli_mcp/src/subprocess/mcp_server.py:113-126 | exactly one reply per non-blank line, in order, and none for blank lines; the loop runs to the end exactly when no request raises |
| CalculatorServer.UndecodableAnswered | gemini_cli_mcp/src/subprocess/mcp_server.py:120-126 | an undecodable line is answered with -32700 and the loop goes on |
| CalculatorServer.InitPrintedOnce | gemini_cli_mcp/src/subprocess/mcp_server.py:100-110 | the initialization result is printed once, before any input: no loop reply equals it |
| QueueClient.ReaderPutsOf | gemini_cli_mcp/src/subprocess/mcp_client.py:111-117 | output that the reader sees as lines ending in '\n' is queued as those lines, stripped, in order, one entry per line |
| QueueClient.ReaderPutsLines | gemini_cli_mcp/src/subprocess/mcp_client.py:111-117 | a server that prints lines without '\r' has each of them queued, stripped, in order |
| QueueClient.ReaderSplitsAtCr | gemini_cli_mcp/src/subprocess/mcp_client.py:111-117 | the reader thread also ends a line at a lone '\r': "a\rb\n" is queued as "a" and "b" |
| QueueClient.WriteStdin | gemini_cli_mcp/src/subprocess/mcp_client.py:141-154 | the writer thread writes each queued message followed by a newline, skips timeouts and stops at None |
| QueueClient.PollQueue | gemini_cli_mcp/src/subprocess/mcp_client.py:209-221 | the polling loop is the specification PollFor: the first non-blank decodable line within the budget, and the outcomes left after it |
| QueueClient.PollConsumes | gemini_cli_mcp/src/subprocess/mcp_client.py:209-221 | a polling loop takes at most its budget of outcomes and leaves the rest, in order, for the next loop |
| QueueClient.PollTimesOut | gemini_cli_mcp/src/subprocess/mcp_client.py:209-226 | a loop times out exactly when no outcome within its budget is a decodable line, and then it has used them all |
| QueueClient.PollTakesFirst | gemini_cli_mcp/src/subprocess/mcp_client.py:315-328 | the first decodable line within the budget is the reply, whatever its id, and the outcomes after it stay queued |
| QueueClient.PollArrivals | gemini_cli_mcp/src/subprocess/mcp_client.py:209-221 | when every arriving line decodes, a loop either times out or takes the next line that arrived |
| QueueClient.Basename | gemini_cli_mcp/src/subprocess/mcp_client.py:248 | os.path.basename is the tail after the last '/', which holds no '/' |
| QueueClient.ToolsDefault | gemini_cli_mcp/src/subprocess/mcp_client.py:247 | a result without tools reads as the empty list, whose names print |
| QueueClient.ConnectOutcomes | gemini_cli_mcp/src/subprocess/mcp_client.py:209-279 | the handshake by stage: no decodable line within 50 polls, or none for tools/list within 50 more, terminates the process; a reply without result terminates it at once; registration under basename(path) happens exactly when that reply has a result |
| QueueClient.ConnectRejects | gemini_cli_mcp/src/subprocess/mcp_client.py:265-277 | a decodable tools/list reply without result ends the handshake at once: the process is terminated and nothing is registered |
| QueueClient.Handshake | gemini_cli_mcp/src/subprocess/mcp_client.py:204-279 | the two requests are queued and each reply is polled for in turn; the outcome is that of the specification Connect |
| QueueClient.ToolRequest | gemini_cli_mcp/src/subprocess/mcp_client.py:305-310 | the tools/call request always has id 3 |
| QueueClient.CallToolSends | gemini_cli_mcp/src/subprocess/mcp_client.py:299-312 | an unregistered server gets the not-found text and nothing is queued; a registered one gets exactly one request, with id 3, on its own input queue, and no other server changes (the module-level copy at lines 35-48 has the same body) |
| QueueClient.CallToolPolls | gemini_cli_mcp/src/subprocess/mcp_client.py:315-335 | with no decodable line among the next 100 outcomes the answer is "도구 호출 타임아웃"; otherwise the first such line decides it |
| QueueClient.ToolAnswerCases | gemini_cli_mcp/src/subprocess/mcp_client.py:321-328 | a result with non-empty content gives content[0].text (default "응답이 없습니다."); an error gives "도구 실행 오류: " + message; anything else, empty content included, gives "알 수 없는 응답 형식입니다." |
| QueueClient.CallAnswerFails | gemini_cli_mcp/src/subprocess/mcp_client.py:337-338 | an exception while reading the reply gives the fixed failure text |
| QueueClient.TagAll | gemini_cli_mcp/src/subprocess/mcp_client.py:344-347 | the inner loop of get_available_tools computes exactly the specification Tagged |
| QueueClient.TaggedShape | gemini_cli_mcp/src/subprocess/mcp_client.py:344-347 | tagging keeps every descriptor, in order, adding only the server key |
| QueueClient.CatalogueShape | gemini_cli_mcp/src/subprocess/mcp_client.py:340-348 | one entry per tool, server by server in registration order, each the stored descriptor with server set to the key it is registered under |
| QueueClient.CatalogueRest | gemini_cli_mcp/src/subprocess/mcp_client.py:343-347 | the entries of later servers follow those of the first |
| QueueClient.ToolCallSliceSpan | gemini_cli_mcp/src/subprocess/mcp_client.py:392-398 | the call text runs from just after the marker to the first '}' after it, inclusive, and is empty without one |
| QueueClient.ChatWithoutToolCall | gemini_cli_mcp/src/subprocess/mcp_client.py:386-433 | without the marker, or with a slice that does not decode, the model's first text is returned after one model call and no tool is called |
| QueueClient.ChatNoBrace | gemini_cli_mcp/src/subprocess/mcp_client.py:392-431 | a marker with no '}' after it gives an empty slice, which does not decode, so the text is returned |
| QueueClient.ChatWithToolCall | gemini_cli_mcp/src/subprocess/mcp_client.py:400-428 | a decoded call goes to call_tool with its server, tool and arguments, and the model's second text is the answer |
| QueueClient.GeminiMCPClient.ConnectServer | gemini_cli_mcp/src/subprocess/mcp_client.py:162-283 | the registry gains the server exactly when the handshake registers it, and the terminated processes grow by those the handshake kills |
| QueueClient.GeminiMCPClient.Enroll | gemini_cli_mcp/src/subprocess/mcp_client.py:250-257 | the registry maps the name to the server; the registration order records a new name once |
| QueueClient.GeminiMCPClient.CallTool | gemini_cli_mcp/src/subprocess/mcp_client.py:285-338 | the answer and the new registry are those of the specification CallOutcome |
| QueueClient.GeminiMCPClient.GetAvailableTools | gemini_cli_mcp/src/subprocess/mcp_client.py:340-348 | the catalogue of the registry, which is left unchanged |
| QueueClient.GeminiMCPClient.Chat | gemini_cli_mcp/src/subprocess/mcp_client.py:350-436 | the reply, the prompts sent and the registry afterwards are those of the specification ChatOutcome |
| QueueClient.GeminiMCPClient.Respond | gemini_cli_mcp/src/subprocess/mcp_client.py:386-436 | the part of chat after the system prompt follows the specification Converse |
| QueueClient.GeminiMCPClient.Cleanup | gemini_cli_mcp/src/subprocess/mcp_client.py:438-442 | every registered process is terminated, in registration order, and the registry is left empty |
| QueueClient.CleanupTerminatesAll | gemini_cli_mcp/src/subprocess/mcp_client.py:438-442 | the process of every registered server is among those cleanup terminates |
| Handshake.HandshakeLines | gemini_cli_mcp/src/subprocess/mcp_client.py:193-236 | the handshake's input to the server is read back as the two request lines, neither blank |
| Handshake.InitializeRejected | gemini_cli_mcp/src/subprocess/mcp_server.py:91-95 | the server answers initialize with -32601 |
| Handshake.ToolsListed | gemini_cli_mcp/src/subprocess/mcp_server.py:85-86 | the server answers the client's tools/list with its catalogue |
| Handshake.ServeTwo | gemini_cli_mcp/src/subprocess/mcp_server.py:113-119 | two answered non-blank lines give two replies and no crash |
| Handshake.ServerAnswers | gemini_cli_mcp/src/subprocess/mcp_server.py:109-126 | given the handshake, the server's loop replies -32601 and then its catalogue, and keeps running |
| Handshake.QueuedReplies | gemini_cli_mcp/src/subprocess/mcp_client.py:111-117 | the reader thread queues each printed reply's text |
| Handshake.RejectionRejected | gemini_cli_mcp/src/subprocess/mcp_client.py:246-267 | the -32601 reply has no result, so it is read as a rejected listing |
| Handshake.ClientGivesUp | gemini_cli_mcp/src/subprocess/mcp_client.py:209-277 | a queue with a decodable line and then a reply without result never registers the server and terminates it |
| Handshake.ClientGivesUpOn | gemini_cli_mcp/src/subprocess/mcp_client.py:240-277 | the same, for a server whose second printed reply has no result |
| Handshake.CalculatorNeverRegistered | gemini_cli_mcp/src/subprocess/mcp_client.py:209-277 | whatever prefix of the calculator's output has arrived, with any empty polls between, the init line is taken as the reply to initialize, the -32601 error as the listing reply, and the process is terminated unregistered |
| SessionClient.Launcher | gemini_cli_mcp/src/fastmcp/mcp_client3.py:60-64 | "python" exactly for a .py path, "node" otherwise, with the path as the only argument; no extension is refused |
| SessionClient.ConnectedCases | gemini_cli_mcp/src/fastmcp/mcp_client3.py:66-88 | success exactly when initialize returns a result; an exception escapes exactly when spawning or an uncaught initialization error raises |
| SessionClient.GeminiMCPClient.ConnectToServer | gemini_cli_mcp/src/fastmcp/mcp_client3.py:50-88 | the session is stored once opened, before initialization, so a failed initialization leaves it in place |
| SessionClient.GeminiMCPClient.CallTool | gemini_cli_mcp/src/fastmcp/mcp_client3.py:103-106 | None without a session, otherwise the session's own answer |
| SessionClient.GeminiMCPClient.GetAvailableTools | gemini_cli_mcp/src/fastmcp/mcp_client3.py:108-115 | [] without a session, otherwise the session's listing |
| SessionClient.DescribeAll | gemini_cli_mcp/src/fastmcp/mcp_client3.py:138-143 | one description line per tool, in order |
| SessionClient.CallTextSpan | gemini_cli_mcp/src/fastmcp/mcp_client3.py:175-179 | the call text ends at the last '}' in the whole text, inclusive, and is empty when no '}' lies after the marker |
| SessionClient.RemovalLeavesBackslashN | gemini_cli_mcp/src/fastmcp/mcp_client3.py:182 | removing backslash-n in one pass does not remove a backslash-n that the removal itself creates |
| SessionClient.NoTextFallback | gemini_cli_mcp/src/fastmcp/mcp_client3.py:168-170 | a None model text gives "응답이 없습니다." |
| SessionClient.TextUnchanged | gemini_cli_mcp/src/fastmcp/mcp_client3.py:173-222 | without the marker, or when the call does not decode, the first model text is returned unchanged |
| SessionClient.NoBraceUnchanged | gemini_cli_mcp/src/fastmcp/mcp_client3.py:176-220 | a marker with no '}' after it leaves nothing to decode, so the text is returned |
| SessionClient.NoSession | gemini_cli_mcp/src/fastmcp/mcp_client3.py:103-115 | without a session the system prompt lists no tools and any decoded call gives "도구 호출에 실패했습니다." |
| SessionClient.ToolCallFolded | gemini_cli_mcp/src/fastmcp/mcp_client3.py:181-217 | a decoded call goes to the session's call_tool; the answer is the final reply, or "최종 응답이 없습니다." when that reply is empty or missing |
| SessionClient.OnlyFirstContent | gemini_cli_mcp/src/fastmcp/mcp_client3.py:195-207 | only the first content item of the tool result affects the answer |
| SessionClient.NoFirstText | gemini_cli_mcp/src/fastmcp/mcp_client3.py:195-197 | a result without content, or whose first item has no text, ends chat with the caught exception's text and no second model call |
| SessionClient.GeminiMCPClient.Chat | gemini_cli_mcp/src/fastmcp/mcp_client3.py:124-225 | the reply is that of the specification ChatOutcome |
| SessionClient.GeminiMCPClient.Cleanup | gemini_cli_mcp/src/fastmcp/mcp_client3.py:117-122 | the exit stack is closed and the session field keeps its old value |
| SdkClients.Launch | python-mcp-server/src/client/client_geni.py:36-44 | an empty argument list raises IndexError; a last argument ending in neither .py nor .js raises ValueError("Server script must be a .py or .js file"); otherwise "uv" for .py and "node" for .js, with the whole list as arguments (the same check is at src/client/client_geni.py:32-41, src/client/client_ollama.py:34-39 and client_geni.py:32-38, and the tests assert the refusal at python-mcp-server/test/client_geniTest.py:88-93) |
| SdkClients.LaunchersCompared | python-mcp-server/test/client_geniTest.py:65-66 | .js runs under node in both launcher choices; .py runs under uv here and under python in the SDK-session client; other extensions are refused here and run under node there |
| SdkClients.ConnectCases | python-mcp-server/src/client/client_geni.py:36-53 | a refused script raises before any spawn; a session is entered only for the launcher of an accepted script |
| SdkClients.Parameters | python-mcp-server/src/client/client_geni.py:72-77 | a dict schema keeps exactly its keys other than additionalProperties and $schema, with their values, so neither of the two is ever in the result and no key is added; a non-dict raises |
| SdkClients.ParametersIdempotent | python-mcp-server/src/client/client_geni.py:72-77 | projecting twice is projecting once |
| SdkClients.ParametersKeepClean | python-mcp-server/src/client/client_geni.py:72-77 | a schema without the two keys passes through unchanged |
| SdkClients.CreateToolList | python-mcp-server/src/client/client_geni.py:66-83 | one Tool per server tool, in order, each with exactly one declaration of that tool's name, description and parameters; it fails exactly when some schema is not a dict (the same projection is at src/client/client_geni.py:62-79, src/client/client_ollama.py:62-79 and client_geni.py:60-75) |
| SdkClients.TextOr | python-mcp-server/src/client/client_geni.py:138 | `response.text or ""` is the text when it is truthy; the result is "" exactly when the text is not truthy |
| SdkClients.ToolTexts | python-mcp-server/src/client/client_geni.py:147 | the texts of the content items, in order; it fails exactly when some item has no text |
| SdkClients.FollowUpPrompt | python-mcp-server/src/client/client_geni.py:141-148 | the prompt begins with pre_query and is pre_query and the tool's texts joined by a blank line; it fails exactly when the call or a text fails |
| SdkClients.SilentPart | client_geni.py:112-114 | a part without truthy text prints nothing |
| SdkClients.TextCandidatesAppend | client_geni.py:108-114 | candidates are numbered on from where earlier candidates stopped |
| SdkClients.MiddlePartSilent | python-mcp-server/test/client_geniTest.py:161-190 | text, a part without text, and text again print as the two texts stripped |
| SdkClients.MixedPartsPrinted | python-mcp-server/test/client_geniTest.py:161-190 | one "model" candidate prints "Candidate #1", "Role       : model", "Content    :" and then its two texts, stripped |
| SdkClients.PrintersAgreeOnText | python-mcp-server/src/client/client_geni.py:152-164 | where every part has text, the printer with the function-call branch prints what the text-only one prints |
| SdkClients.PartsAgreeOnText | python-mcp-server/src/client/client_geni.py:160-164 | the same, for the parts of one candidate |
| SdkClients.PartLinesFail | python-mcp-server/src/client/client_geni.py:160-164 | the printer raises exactly when some part has neither truthy text nor a function call |
| SdkClients.RunLoop | python-mcp-server/src/client/client_geni.py:106-127 | the loop prints exactly the specification Transcript: one turn per query until quit |
| SdkClients.QuitEndsLoop | python-mcp-server/src/client/client_geni.py:108-110 | nothing after the first line that strips to "quit" (in any case) is read |
| SdkClients.EveryQueryAnswered | src/client/client_geni.py:104-130 | without quit every line gets exactly its own turn, whatever the earlier turns did |
| SdkClients.TemplateTurn | python-mcp-server/src/client/client_geni.py:111-127 | the templated query goes to the model and parse_answer folds the answer; an API error prints its status and message; then the profile resource's first text is printed; any other exception prints "\nError: " + its text |
| GenaiParsingClient.PreQuery | python-mcp-server/src/client/client_geni.py:145 | pre_query is "" exactly when the text is not truthy, and otherwise begins with the query and is longer than it |
| GenaiParsingClient.NoCandidates | python-mcp-server/src/client/client_geni.py:131-133 | a response without candidates fails with IndexError, function calls or not |
| GenaiParsingClient.NoCallsAnswered | python-mcp-server/src/client/client_geni.py:137-138 | without function calls the answer is the text, or "" |
| GenaiParsingClient.OnlyFirstCall | python-mcp-server/src/client/client_geni.py:140-150 | only the first function call is executed: dropping the others changes nothing |
| GenaiParsingClient.FollowsUp | python-mcp-server/src/client/client_geni.py:145-150 | the follow-up prompt is pre_query and the tool texts joined by a blank line, and the result is the recursion on the model's answer with pre_query as the query |
| GenaiParsingClient.QueryDropped | python-mcp-server/src/client/client_geni.py:145-148 | after a response without text the prompt carries only the tool texts after an empty first line |
| GenaiParsingClient.FuelSuffices | python-mcp-server/src/client/client_geni.py:129-150 | more fuel changes nothing once a run has ended without running out |
| GenaiParsingClient.MCPClient.ConnectToServer | python-mcp-server/src/client/client_geni.py:31-56 | a refused script or a failed spawn raises with nothing stored; otherwise the session is stored, and after a good initialization the listed tools become self.tools, or the listing error escapes |
| GenaiParsingClient.MCPClient.ChatLoop | python-mcp-server/src/client/client_geni.py:101-127 | what is printed is the transcript of the template turn over the input lines |
| GenaiAggregatingClient.CallOutputs | src/client/client_geni.py:113-120 | one text per function call, in order, each the call's texts joined by "\n--\n"; it fails exactly when some call fails or answers with a non-text item |
| GenaiAggregatingClient.CallAll | src/client/client_geni.py:113-120 | the loop filling answer2 computes exactly CallOutputs |
| GenaiAggregatingClient.EveryCallExecuted | src/client/client_geni.py:114-120 | with two calls both texts are kept, in order |
| GenaiAggregatingClient.OneFollowUp | src/client/client_geni.py:109-123 | the model is asked once, and a second time exactly when there were function calls, all answered in text, and the answer had text; the second prompt is that text followed directly by the call texts joined by "\n--\n" |
| GenaiAggregatingClient.NoCallsFail | src/client/client_geni.py:109-125 | without function calls the turn always ends in the error about the string's missing candidates |
| GenaiAggregatingClient.MCPClient.ConnectToServer | src/client/client_geni.py:27-52 | as in the parsing client: the session is stored when entered and the listed tools become self.tools |
| GenaiAggregatingClient.MCPClient.Turn | src/client/client_geni.py:104-130 | one iteration sends and prints what Aggregate gives |
| GenaiAggregatingClient.MCPClient.ChatLoop | src/client/client_geni.py:97-130 | the prompts sent and the lines printed are the transcripts of Aggregate over the input lines |
| OllamaGenaiClient.PreQuery | src/client/client_ollama.py:162 | query + text when the text is truthy, otherwise the query itself; it always begins with the query |
| OllamaGenaiClient.NoCallsAnswered | src/client/client_ollama.py:154-155 | without function calls the answer is the text, or "" |
| OllamaGenaiClient.OnlyFirstCall | src/client/client_ollama.py:157-167 | only the first function call is executed |
| OllamaGenaiClient.FollowsUp | src/client/client_ollama.py:162-167 | the follow-up prompt joins pre_query and the tool texts by a blank line, and the recursion keeps the original query |
| OllamaGenaiClient.PromptsKeepQuery | src/client/client_ollama.py:157-167 | however deep the recursion goes, every follow-up prompt begins with the user's query |
| OllamaGenaiClient.FuelSuffices | src/client/client_ollama.py:149-167 | more fuel changes nothing once a run has ended without running out |
| OllamaGenaiClient.MCPClient.ConnectToServer | src/client/client_ollama.py:29-52 | the session is stored when entered, with no tool listing |
| OllamaGenaiClient.MCPClient.ChatLoop | src/client/client_ollama.py:96-147 | the tools are listed once before the loop, outside its try: a failure escapes with nothing printed, otherwise the transcript of the template turn is printed |
| GenaiRelistingClient.Asked | client_geni.py:52-83 | each query asks the model at most once, exactly when that query's own listing could be declared |
| GenaiRelistingClient.EveryQueryRelisted | client_geni.py:57-81 | while no listing fails, query j goes to the model once, with the declarations of the j-th listing |
| GenaiRelistingClient.MCPClient.ConnectToServer | client_geni.py:27-50 | the session is stored when entered, and what escapes is the launch or initialization error |
| GenaiRelistingClient.MCPClient.ChatLoop | client_geni.py:85-102 | the requests and the printed lines are the transcripts of one process_query and one print_candidates per query until quit |
| ToolManager.OllamaToolManager.constructor | ollama-mcp-client/tests/test_ollama_toolmanager.py:30-32 | a fresh manager has no tools |
| ToolManager.OllamaToolManager.RegisterTool | ollama-mcp-client/tests/test_ollama_toolmanager.py:34-60 | the tool is stored under its name with the schema's properties and required list; a new name adds one entry and an existing one is replaced in place |
| ToolManager.OrderCountsTools | ollama-mcp-client/tests/test_ollama_toolmanager.py:134-139 | one entry per registered name, so two distinct names give two tools and two specs |
| ToolManager.SpecFields | ollama-mcp-client/tests/test_ollama_toolmanager.py:79-87 | a spec has type "function" and, under "function", the tool's name, description, properties and required list |
| ToolManager.SpecsOf | ollama-mcp-client/tests/test_ollama_toolmanager.py:138-144 | one spec per name given, in order |
| ToolManager.OllamaToolManager.GetTools | ollama-mcp-client/tests/test_ollama_toolmanager.py:62-87 | one spec per registered tool, in registration order |
| ToolManager.OllamaToolManager.ExecuteTool | ollama-mcp-client/tests/test_ollama_toolmanager.py:146-228 | an unregistered name raises ValueError("Unknown tool: " + name); a registered tool's result is returned, and its exception becomes an error result |
| ToolManager.InvokedCases | ollama-mcp-client/tests/test_ollama_toolmanager.py:146-228 | a tool's result is returned as it is, and an exception becomes status "error"; no failure escapes |
| ToolManager.ExecutionError | ollama-mcp-client/tests/test_ollama_toolmanager.py:194-228 | the error result has status "error" and text containing "Error executing tool" |
| ToolManager.WithRepoPath | ollama-mcp-client/tests/test_ollama_toolmanager.py:230-270 | repo_path is present afterwards, and every given argument is kept |
| ToolManager.WithRepoPathIdempotent | ollama-mcp-client/tests/test_ollama_toolmanager.py:230-270 | filling in repo_path twice is filling it in once |
| ToolManager.OllamaToolManager.ClearTools | ollama-mcp-client/tests/test_ollama_toolmanager.py:272-293 | the registry is left empty |
| GeminiCliServer.CatalogueContents | gemini_cli_mcp/mcp_server2.py:21-74 | exactly gemini_query, gemini_chat and gemini_image_analysis, requiring query, message, and image_path with prompt (the same in gemini_cli_mcp/src/mcp/mcp_server2.py:21-74) |
| GeminiCliServer.CallTool | gemini_cli_mcp/mcp_server2.py:77-146 | every call yields exactly one text item; nothing raises |
| GeminiCliServer.PlanIffRequired | gemini_cli_mcp/mcp_server2.py:80-120 | a command is built exactly for a listed tool with every required argument present |
| GeminiCliServer.UnknownIffNotListed | gemini_cli_mcp/mcp_server2.py:132-136 | a name is unknown exactly when it is not in the catalogue |
| GeminiCliServer.QueryCommand | gemini_cli_mcp/mcp_server2.py:80-85 | gemini_query runs ["gemini","query","--model",model,query] for 30 seconds, model defaulting to "gemini-pro" |
| GeminiCliServer.ChatCommand | gemini_cli_mcp/mcp_server2.py:97-102 | gemini_chat runs ["gemini","chat","--session",session_id,message] for 30 seconds, session defaulting to "default" |
| GeminiCliServer.ImageCommand | gemini_cli_mcp/src/mcp/mcp_server2.py:114-120 | gemini_image_analysis runs ["gemini","analyze","--image",image_path,prompt] for 60 seconds |
| GeminiCliServer.SuccessIffExitZero | gemini_cli_mcp/mcp_server2.py:87-95 | the result is an error unless the command ran and exited with 0, when it is the stripped stdout |
| GeminiCliServer.ReportCases | gemini_cli_mcp/src/mcp/mcp_server2.py:87-146 | non-zero exit gives "오류: " + stderr, a timeout "요청 시간 초과", another exception "실행 오류: " + its text, all with isError |
| GeminiCliServer.UnknownTool | gemini_cli_mcp/src/mcp/mcp_server2.py:132-136 | an unknown name gives "알 수 없는 도구: " + name with isError |
| GeminiCliServer.RunsOnlyThePlan | gemini_cli_mcp/mcp_server2.py:80-136 | only the planned command is run; without a plan no runner is consulted |
| GeminiCliServer.MissingArgument | gemini_cli_mcp/mcp_server2.py:138-146 | a missing required argument is an execution error, and nothing is run |

## Left out

- JsonValues.Json has no floating-point numbers: its numbers are integers. Every lemma
  over `decode` therefore covers only JSON without floats, and a float in a reply or in
  tool arguments is not modelled.
- Common.ParseInt follows the table of decimal digits of Unicode 15.0, which Python 3.12
  uses; Python versions with another Unicode table accept a slightly different set.
- Common.ParseInt does not apply CPython's limit on converting long digit strings
  (`sys.int_max_str_digits`, 4300 digits by default, configurable through
  `sys.set_int_max_str_digits`, `PYTHONINTMAXSTRDIGITS` or `-X int_max_str_digits`). The
  model parses such text, so the ValueError that `read_message` raises for a Content-Length
  value longer than the limit is not modelled. (The same limit on the calculator's
  `str()` of eval's value is modelled, through `CalculatorServer.Value`.)
- Framing.SendThenRead and Handshake.LineCodec cover only encoders that write no raw
  '\r', as `json.dumps` does (it escapes control characters). An encoder that wrote one
  would have it translated by the text=True pipe.
- Writing through a text=True pipe on Windows, where '\n' would become "\r\n", is not
  modelled; the model writes '\n' as it is, as on Linux.
- QueueClient.GeminiMCPClient: gemini_cli_mcp/src/subprocess/mcp_client.py imports
  `from google import genai` (line 17) but its constructor calls `genai.configure` and
  `genai.GenerativeModel` (lines 103-104), which that package does not have, so as written
  `GeminiMCPClient(api_key)` raises AttributeError and `main` never connects a server. The
  class is modelled as if the older `google.generativeai` import, which has both, were in
  place.
- Console output other than what a loop's contract names is not modelled: connection
  messages, the debug prints of `parse_answer` and `process_query`, and `print_candidates`
  inside the genai parsing client's turn. For those prints, only the exceptions they
  raise are modelled.
- The reader and writer threads, the queues and their timeouts are modelled by their
  effect. Polling consumes a given sequence of poll outcomes, and the writer's output is
  the framed text of the messages it takes. Interleaving and real time are left out.
- Process spawning, termination, `subprocess.run` and its timeout, the MCP SDK session,
  the language-model SDKs, `json.dumps`/`json.loads` and `eval` are parameters. Their
  behaviour is whatever the caller supplies.
- A `decode` parameter has two outcomes, a value or a JSONDecodeError. `json.loads` can
  raise two other exceptions, which no `except json.JSONDecodeError` in the code catches:
  RecursionError on deeply nested text, and a plain ValueError on an integer literal longer
  than `sys.int_max_str_digits` (4300 digits by default). Neither is modelled, and where
  they occur the lemmas over `decode` do not describe the source:
  - the calculator's `run` loop (gemini_cli_mcp/src/subprocess/mcp_server.py:116-126)
    lets the error escape and the server stops, where CalculatorServer.UndecodableAnswered
    and ServeReplies answer -32700 and go on;
  - `connect_server` (gemini_cli_mcp/src/subprocess/mcp_client.py:208-221, 262-272) falls
    to its outer handler and returns False without terminating the process, where
    QueueClient.ConnectOutcomes terminates it;
  - `call_tool` (mcp_client.py:322-337) returns its failure text instead of polling on, as
    QueueClient.CallToolPolls does;
  - `chat` (mcp_client.py:430) returns "오류가 발생했습니다: " and the error instead of the
    model's text (QueueClient.ChatWithoutToolCall).
- Model names, temperature, API keys and environment variables are not modelled; they
  do not influence any branch.
- End of input in the interactive chat loops is not modelled. `input()` raising EOFError
  there is caught and the loop spins forever. The model's loops run over a finite list of
  lines.
- `cleanup`/`aclose` of the four genai/ollama clients is not modelled: it closes SDK
  contexts that are parameters here.
- `src/client/client_ollama.py` does not parse (incomplete import at line 6). It also uses
  `genai` and `types`, which it never imports, on a client without `.models`. Its logic is
  modelled as written, as if those names resolved.
- GenaiParsingClient.ParseAnswer and OllamaGenaiClient.ParseAnswer: the recursion is
  bounded by fuel, which the source does not have. With enough fuel the result is the
  source's (FuelSuffices). The source's unbounded non-termination is not modelled.
- A function call whose name is None is modelled with the name "", which prints the
  same (nothing).
- ToolManager.OllamaToolManager.RegisterTool requires both `properties` and `required` in
  the schema, because the implementation is not part of this model and the tests always
  supply both.
- ToolManager.OllamaToolManager.constructor takes the repository path as a parameter; the
  tests never show where it comes from.
- ToolManager.ExecutionError states only the text the tests check ("Error executing
  tool"), because the full wording of the message is not part of this model.
- The print of `image_path` and `prompt` in the image-analysis branch of the Gemini-CLI
  dispatcher is not modelled.
- The framing client's top-level script (spawning a weather server and sending three
  requests) is a demo, not part of the modelled core.
