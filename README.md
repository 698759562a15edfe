# agenticai in Dafny

A verified model of the parts of the agenticai repository that own their
behaviour: the hand-rolled MCP tool registries and dispatchers, the way
agents read tool calls out of language-model replies, the keyword routers,
the personal-finance tool with the text that its MCP client writes and its
web front end reads back, and the LangGraph review/revise workflow. The
language models, SQLite, the MCP SDK sessions, the file system and the
clock are parameters or in-memory values. Within those limits the Python
code is followed branch by branch; "## Left out" lists the places where the
model is coarser than the code.

One module per component:

- `Text` — Python `str` operations as the code uses them: `in`, `find`,
  `split`, `join`, `strip`, `replace`, `lower`/`upper`, `count`, `split()`,
  `isdigit`, and `Path.read_text()`'s universal-newline reading. `Values` — JSON values and small sequence helpers.
- `McpTemplate` — `MCPTool.to_mcp_manifest`, the `MCPServer` registries (a
  class whose tool, resource and manifest maps are updated in place), the
  workspace file tool (a class over a `map<string, string>` of files), the
  binding of an agent's decoded parameters to a tool's keywords, and the
  fence stripping of the Ollama agent.
- `SystemDemo` — the MCP system demo: schemas, the file tool, the agent's
  name-keyed tool map, LLM-reply parsing and the keyword router of the
  scripted variant.
- `LangchainBridge`, `LangchainDemo` — the LangChain wrappers that turn one
  input string into tool arguments, the in-memory document tool, the mock
  analyst LLM and the demo routers.
- `McpServer`, `McpClient` — the SDK server's dispatcher and handlers, and
  the client's session guard and argument derivation (a class whose session
  and tools fields connect and disconnect update).
- `FastMcp` — the FastMCP workspace tools: read, list, the capped line
  search and the project-progress figures.
- `OllamaLoop` — the Ollama client: reply classification, prompt
  serialisation and the bounded tool-calling loop.
- `Ledger` — the finance database (transactions, categories, goals) as a
  class over sequences of records, with the newest-first listing and the
  month filters.
- `FinanceTool`, `FinanceServer` — the personal-finance tool's `execute`
  dispatcher and the finance MCP server's tools, budget check and demo
  seeding.
- `FinanceClient`, `FinanceWeb` — the client's request parsers and text
  formatters, and the web layer's parsers of that text; the pair is proved
  to round-trip.
- `FinanceAgent` — the LangChain finance agent: its five tool functions,
  the sentence router, the amount regex and the category keywords.
- `FinanceWebApp` — the Flask app's budget alerts, budget percentages and
  spending-chart series.
- `ReviewWorkflow` — the multi-agent workflow's nodes, routers, edges and
  run, proved to finish after one or two reviews.
- `FreePractice` — the free mock LLM's content extraction and keyword
  replies.

Several files exist twice in the repository (`mcp-core/` and `examples/`
copies of the MCP template, the system demo, the finance web app and the
workflow). Each is modelled once; the rows below cite whichever copy holds
the lines in question.

## Model

| member | source | states |
|---|---|---|
| McpTemplate.ToMcpManifest | examples/mcp_project_template.py:34-42 | the manifest entry echoes the tool's name and description, has version "1.0.0" and the tool's `get_schema()`, and keeps its creation time |
| McpTemplate.Workspace.constructor | mcp-core/mcp_project_template.py:182-188 | a new workspace directory holds no files |
| McpTemplate.Workspace.CreateSampleFiles | mcp-core/mcp_project_template.py:191-243 | files that already exist keep their content (never overwritten); afterwards every sample name is a file, and a newly created one holds its sample text |
| McpTemplate.Workspace.Execute | examples/mcp_project_template.py:268-309 | the reply and the new workspace are exactly those of the operation's specification `Run` on the old workspace, where read and search see the text as `read_text()` returns it (universal newlines) |
| McpTemplate.WriteThenRead | mcp-core/mcp_project_template.py:278-289 | writing non-empty content to a non-empty path succeeds, and reading that path then returns the content with its line ends read as "\n" and the size of that text; content without a carriage return comes back exactly |
| McpTemplate.WriteCrLfThenRead | mcp-core/mcp_project_template.py:281-283 | a written "\r\n" line end reads back as one "\n", and the reported size is one less than the written length |
| Text.ReadTextPlain | mcp-core/mcp_project_template.py:281 | text without a carriage return is read back unchanged |
| Text.ReadTextIdempotent | mcp-core/mcp_project_template.py:281 | reading text that was already read changes nothing |
| Text.ReadTextAppend | mcp-core/mcp_project_template.py:281 | text that does not end in a carriage return reads independently of what follows it |
| Text.CrLfReadsAsLf | mcp-core/mcp_project_template.py:281 | a "\r\n" between carriage-return-free texts reads as a single "\n" |
| McpTemplate.RejectedRequests | mcp-core/mcp_project_template.py:251-307 | a write with an empty path or content, an unknown operation, and "delete" (advertised in the schema) all give "Invalid operation or missing parameters" and leave the workspace unchanged |
| McpTemplate.ReadOnlyOperations | examples/mcp_project_template.py:270-300 | list, read and search never change the workspace |
| McpTemplate.SearchHitsExact | mcp-core/mcp_project_template.py:291-304 | a file is reported iff its lowercased content contains the lowercased query, each file at most once, with the non-overlapping occurrence count (at least 1); `Run` searches the texts as read |
| McpTemplate.SearchHitsShape | examples/mcp_project_template.py:287-300 | every hit comes from a listed file and is that file's own entry; every file with an entry is reported once |
| McpTemplate.Server.constructor | mcp-core/mcp_project_template.py:316-329 | a new server has its name and version and no tools or resources |
| McpTemplate.Server.RegisterTool | mcp-core/mcp_project_template.py:331-335 | the tool is keyed by its name in both the tool map and the manifest; a re-registered name replaces its entry and keeps its place; resources are untouched |
| McpTemplate.Server.RegisterResource | examples/mcp_project_template.py:335-342 | the resource is keyed by its URI and the manifest records only its name and description; tools are untouched |
| McpTemplate.Server.CallTool | mcp-core/mcp_project_template.py:346-351 | an unregistered name gets "Tool <name> not found" and runs nothing; a registered file tool behaves as `Execute` (on keywords already bound to text, as a `Request`) |
| McpTemplate.CallFile | mcp-core/mcp_project_template.py:270-309 | the file tool's `execute` on decoded values: with text or falsy arguments it is exactly `Run` on their text; only a write with a text path and text content changes the workspace; a non-text path or content where it is used comes back as a caught error, and a non-text search query skips every file and finds nothing |
| McpTemplate.BindRequest | mcp-core/mcp_project_template.py:270-271 | the decoded parameters bind to `execute` exactly when `operation` is among them and no key lies outside operation, path, content and query; they then bind to their own values, and a missing one to `None` |
| McpTemplate.Server.CallWithParameters | mcp-core/mcp_project_template.py:346-351 | `call_tool(tool_name, **parameters)` as the agent makes it: a `self` or `tool_name` parameter, which clashes with `call_tool`'s own parameters, or keywords the chosen tool's `execute` cannot bind (a missing `operation`, an unknown key; `operation` and `sql` for the database tool), raise before any tool runs, which `process_request` answers with "❌ Error processing request", and leave the workspace unchanged; otherwise an unregistered name gets "Tool <name> not found", the database tool gives its reply, and the file tool behaves as `CallFile` on the bound values |
| McpTemplate.Server.GetManifest | examples/mcp_project_template.py:351-353 | the manifest lists exactly the registered tool names and resource URIs, under protocol version "2024-11-05" |
| McpTemplate.Server.ListTools | mcp-core/mcp_project_template.py:357-359 | exactly the registered names, each once, in the order they were registered (the order `RegisterTool` keeps in `toolOrder`) |
| McpTemplate.NoToolNameNoCall | mcp-core/mcp_project_template.py:455-463 | a decoded reply without a truthy `tool_name` answers "did not specify a tool" and calls nothing |
| McpTemplate.CallIffToolNamed | mcp-core/mcp_project_template.py:455-469 | a tool is called exactly when the decoded reply is an object whose `tool_name` is a non-empty string and whose parameters, if present, are an object without a `self` or `tool_name` key |
| McpTemplate.ClashingParametersFail | mcp-core/mcp_project_template.py:469 | parameters holding a `self` or `tool_name` key make the call raise while binding, before the name is looked up: the answer is "❌ Error processing request" even for an unknown name |
| McpTemplate.JsonFenceBody | mcp-core/mcp_project_template.py:450-452 | with a "```json" fence, only the trimmed text between it and the next fence is decoded |
| McpTemplate.PlainFenceBody | mcp-core/mcp_project_template.py:453-454 | with plain fences only, the trimmed text between the first two is decoded |
| McpTemplate.NoFenceWholeReply | mcp-core/mcp_project_template.py:450 | without fences the whole trimmed reply is decoded |
| SystemDemo.ToSchema | mcp-core/mcp_system_demo.py:22-36 | the schema echoes the tool's name and description with its `get_parameters()`; the base class's parameters are `{}` |
| SystemDemo.BaseToolRaises | examples/mcp_system_demo.py:29-35 | executing a base-class tool raises `NotImplementedError` and changes nothing; its parameters are `{}` |
| SystemDemo.FileExecute | examples/mcp_system_demo.py:188-210 | the reply and the new workspace are those of the file operation's specification `FileRun`, whose read returns the text as `read_text()` does |
| SystemDemo.FileCall | mcp-core/mcp_system_demo.py:189-212 | `execute` never lets an exception out: a non-text name or content ends in an {"error"} reply, and the workspace changes only for a write of text content under a text name |
| SystemDemo.FileExecuteValues | mcp-core/mcp_system_demo.py:189-212 | on argument values as decoded from JSON, the reply and the new workspace are those of `FileCall` |
| SystemDemo.FileCallOnText | examples/mcp_system_demo.py:188-210 | on text or missing arguments the call is `FileRun`, a missing argument acting as an empty one |
| SystemDemo.FileCallNonText | mcp-core/mcp_system_demo.py:196-212 | a truthy non-text name turns a read or a write into an error reply with nothing written, and so does truthy non-text content for a write; a falsy name or content gives the invalid-operation reply; "list" ignores both |
| SystemDemo.FileWriteThenRead | mcp-core/mcp_system_demo.py:196-206 | writing non-empty content under a non-empty name, then reading that name, returns the content with line ends read as "\n", and exactly the content when it holds no carriage return |
| SystemDemo.FileReadAbsent | examples/mcp_system_demo.py:195-200 | reading an absent name gives "File <name> not found" and changes nothing |
| SystemDemo.FileRejected | mcp-core/mcp_system_demo.py:196-209 | a write without name or content, a read without a name, or an unknown operation gives "Invalid operation or missing parameters" with no write |
| SystemDemo.ToolMapLastWins | mcp-core/mcp_system_demo.py:217-218 | the tool map's keys are exactly the tools' names, and each name maps to the last tool carrying it |
| SystemDemo.NameOrderKeys | examples/mcp_system_demo.py:216-220 | the listing order names every key of the tool map exactly once |
| SystemDemo.Agent.constructor | mcp-core/mcp_system_demo.py:217-223 | the agent's tools are the name-keyed map of the given list |
| SystemDemo.Agent.AvailableTools | mcp-core/mcp_system_demo.py:225-226 | one schema per distinct tool name, each the schema of the tool kept under that name |
| SystemDemo.SchemasOf | examples/mcp_system_demo.py:222-224 | one schema per listed name, in order |
| SystemDemo.Agent.ExecuteTool | mcp-core/mcp_system_demo.py:228-231 | arguments holding a `self` or `tool_name` key raise `TypeError` before the name is looked up and run nothing; otherwise an unknown name gives {"error": "Tool <name> not found"} and runs nothing; a known one binds the keyword arguments as Python does and runs that tool, the file tool getting the values as decoded |
| SystemDemo.Classify | mcp-core/mcp_system_demo.py:264-267 | a result holding an "error" key is reported as a tool error, an exception as an execution error, anything else as success |
| SystemDemo.ErrorRowsAreSuccess | mcp-core/mcp_system_demo.py:264-265 | a list of database rows is always reported as success, even when a row mentions an error |
| SystemDemo.ProcessRequest | mcp-core/mcp_system_demo.py:233-272 | an unparsable reply, a reply without `tool_name` and a failing step each get their own message and touch no file (arguments holding a `self` or `tool_name` key are such a failing step); an unregistered name is a tool error; a registered one runs that tool, is reported by `Classify` and leaves the workspace as the tool's dispatch does |
| SystemDemo.RunsOnlyWhenNamed | mcp-core/mcp_system_demo.py:247-261 | a tool runs iff the fence-stripped reply decodes to an object with a non-empty string `tool_name` and `tool_args` absent or a dict without a `self` or `tool_name` key; it gets that name and `tool_args`, default `{}` |
| SystemDemo.ObjectRunsOnlyWhenNamed | mcp-core/mcp_system_demo.py:251-261 | for a decoded object, a tool runs iff `tool_name` is a non-empty string and `tool_args` is absent or a dict without a `self` or `tool_name` key, and it gets that name and those arguments |
| SystemDemo.ClashingArgsFail | mcp-core/mcp_system_demo.py:261 | `tool_args` holding a `self` or `tool_name` key make `execute_tool` raise while binding, whatever the name, so the answer is "Error executing tool" |
| SystemDemo.FailedCallRunsNothing | mcp-core/mcp_system_demo.py:318-319 | when the LLM call fails with an exception text free of quotes, backslashes, control characters and backquotes, the error object it decodes to names no tool, so no tool runs |
| SystemDemo.RoutePrecedence | examples/mcp_system_demo.py:240-245 | a database keyword routes to the database handler even when file keywords are present; else file keywords route to the file handler; else the general reply |
| SystemDemo.DatabaseErrorCases | examples/mcp_system_demo.py:266-270 | a database reply is an error iff it is empty or one of its rows contains "error" |
| SystemDemo.ProjectFileGoesToDatabase | examples/mcp_system_demo.py:240-243 | any request in which "project" occurs goes to the database handler, whatever file words it also holds |
| SystemDemo.EmployeesBeatEngineering | examples/mcp_system_demo.py:252-255 | any request in which "employees" occurs selects every employee, even when it also names engineering, salary or projects |
| SystemDemo.DatabaseQueryPrecedence | examples/mcp_system_demo.py:252-261 | "employees" wins over "projects", which wins over the rest; with none of the four words the query is `LIMIT 5` |
| SystemDemo.FileCallShapes | examples/mcp_system_demo.py:276-283 | the file handler only ever lists or reads one of the two demo files, and "list" always lists |
| LangchainBridge.PlainInputArgs | mcp-core/mcp_langchain_integration.py:36-46 | input not starting with '{' becomes `query=s` for database_query, `operation="read", filename=s` for file_operations, and `input=s` for any other tool |
| LangchainBridge.StructuredInputArgs | mcp-core/mcp_langchain_integration.py:36-37 | input starting with '{' is used as the keyword arguments exactly when it decodes to a JSON object |
| LangchainBridge.WrapperNeverRaises | mcp-core/mcp_langchain_integration.py:32-50 | the wrapper returns the dumped result exactly when the arguments decode and the tool call succeeds; every other case is an "Error: ..." text, never an exception |
| LangchainBridge.Documents | mcp-core/mcp_langchain_integration.py:100-107 | the document store holds exactly the three named documents, listed in that order |
| LangchainBridge.DocListExact | mcp-core/mcp_langchain_integration.py:111-112 | "list" returns exactly the three stored names, each once |
| LangchainBridge.DocRead | mcp-core/mcp_langchain_integration.py:113-117 | reading a stored name returns its content; an absent name gives "File <name> not found" |
| LangchainBridge.DocInvalid | mcp-core/mcp_langchain_integration.py:118-119 | any other operation, or a read without a filename, gives "Invalid operation" |
| LangchainBridge.InvokeContent | mcp-core/mcp_langchain_integration.py:134-138 | for a list, the content is the last element's; an empty list has none (the source raises there) |
| LangchainBridge.InvokePrecedence | mcp-core/mcp_langchain_integration.py:140-149 | "analyze" with "request" wins over "determine" with "data", which wins over "synthesize"; otherwise the fixed mock text |
| LangchainBridge.EmployeeWins | mcp-core/mcp_langchain_integration.py:151-163 | "employee" decides both the analysis and the data needs, whatever else the text holds |
| LangchainBridge.DataNeedsDefault | mcp-core/mcp_langchain_integration.py:151-167 | without "employee" or "project" the data need is the company policy, and the analysis is the policy one iff "policy" or "handbook" occurs |
| LangchainDemo.AdapterArgs | mcp-core/mcp_langchain_demo.py:73-75 | input without ':' always becomes the call `execute("list")` |
| LangchainDemo.NoColonLists | mcp-core/mcp_langchain_demo.py:73-75 | input without ':' lists the documents, even when it is "read" |
| LangchainDemo.OneColonSplits | mcp-core/mcp_langchain_demo.py:74 | "action:filename" with one colon calls the tool with that action and filename |
| LangchainDemo.TwoColonsRaise | mcp-core/mcp_langchain_demo.py:74 | with two or more colons the split gives too many positional arguments and the call fails |
| LangchainDemo.ScriptedDocumentsRead | mcp-core/mcp_langchain_demo.py:128-136 | the scripted policy and project branches read company_policy.md and project_status.md |
| LangchainDemo.ScriptedPrecedence | mcp-core/mcp_langchain_demo.py:121-136 | "python"/"developer" wins over "policy", which wins over "project"; with none of them no tool is called |
| LangchainDemo.Interpret | mcp-core/mcp_langchain_demo.py:246-249 | a line ends the session iff, trimmed and lowercased, it is "quit", "exit" or "q" |
| LangchainDemo.InteractivePrecedence | mcp-core/mcp_langchain_demo.py:251-294 | for a non-empty, non-exit line, a database keyword runs a query, else a document keyword reads a document, else only the general LLM branch runs |
| LangchainDemo.EngineeringBeatsSalary | mcp-core/mcp_langchain_demo.py:258-263 | "engineering" selects the engineering query even when "salary" is present |
| LangchainDemo.ExitIgnoresCase | mcp-core/mcp_langchain_demo.py:246-247 | "Quit" with surrounding spaces ends the session |
| LangchainDemo.Session | mcp-core/mcp_langchain_demo.py:243-300 | each line read is interpreted in turn; the loop stops right after the first line that quits (by `Interpret`, exactly an exit word) and reads every line when none does |
| LangchainDemo.Turns | mcp-core/mcp_langchain_demo.py:243-251 | the `while True` loop with its per-line decision as a parameter: one decision per line in order, none quitting before the last, and every line read when none quits |
| McpServer.ListTools | mcp-core/mcp_server.py:174-210 | two tools are advertised, query_database then access_document, the latter with the actions "list" and "read" |
| McpServer.DispatchMatchesAdvertised | mcp-core/mcp_server.py:214-224 | a call is answered iff its name is an advertised tool, always with exactly one text element; any other name raises "Unknown tool: <name>" |
| McpServer.MissingActionInvalid | mcp-core/mcp_server.py:219-222 | a document call without an action gets the invalid-action error |
| McpServer.MissingQueryEmpty | mcp-core/mcp_server.py:216-217 | a database call without a query runs the empty query |
| McpServer.DocumentRead | mcp-core/mcp_server.py:250-258 | reading an existing document returns its filename and its content with line ends read as "\n" (exactly the content when it holds no carriage return); an absent one gives "File <name> not found" |
| McpServer.DatabaseOneElement | mcp-core/mcp_server.py:228-241 | the database handler returns exactly one text element, an error exactly when the query fails |
| McpServer.ServerInfoMatchesListing | mcp-core/mcp_server.py:279-286 | the server info names the same tools, in the same order, as the listing handler |
| McpClient.Client.constructor | mcp-core/mcp_client.py:25-29 | a new client has no session, no tools, no server info and is not connected |
| McpClient.Client.ConnectToServer | mcp-core/mcp_client.py:31-64 | the result is true iff the handshake completes, and `connected` equals it; the session is stored as soon as it opens and the server info once `initialize` returns, so a later failure leaves them stored; the tools change only on success |
| McpClient.Client.CallTool | mcp-core/mcp_client.py:66-89 | without a session the call fails with "Not connected to MCP server"; with one it is the server's reply |
| McpClient.Client.ToLangchainTools | mcp-core/mcp_client.py:91-138 | one wrapper per MCP tool, in order, with the same name and description; none when there are no tools |
| McpClient.Client.GetToolInfo | mcp-core/mcp_client.py:140-156 | one entry per tool with its name, description and schema; [] without tools |
| McpClient.Client.GetServerInfo | mcp-core/mcp_client.py:158-169 | tools_count equals the number of tool names, which are the tools' names in order |
| McpClient.Client.Disconnect | mcp-core/mcp_client.py:171-178 | with a live session, clears it and marks the client disconnected; tools and server info stay |
| McpClient.DisconnectThenCall | mcp-core/mcp_client.py:79-80 | after a disconnect every tool call fails with "Not connected" |
| McpClient.FailedConnectThenCall | mcp-core/mcp_client.py:44-46 | after a handshake whose `initialize` fails, the client is not connected, yet a tool call goes to the stored session instead of raising "Not connected" |
| McpClient.SplitFirstColon | mcp-core/mcp_client.py:116-117 | the split at the first ':' rejoins to the input, and its left part has no colon (later colons stay in the filename) |
| McpClient.QueryBeatsDocument | mcp-core/mcp_client.py:113-114 | a tool name containing "database" or "query" gets {"query": s}, even when it also contains "document" |
| McpClient.DocumentArgsSplit | mcp-core/mcp_client.py:115-120 | a document tool gets the action and filename split at the first ':', or {"action": s} when there is no colon |
| McpClient.WrapperWithoutSession | mcp-core/mcp_client.py:124-127 | without a session the wrapper returns an "Error: ..." text instead of raising |
| McpClient.WrapperOutput | mcp-core/mcp_client.py:103-127 | the wrapper as written returns the "Error: ..." text for every input: a failure is caught, and a result cannot be serialised because `json.dumps` raises on the SDK's `CallToolResult` |
| McpClient.WrapperOutputIntended | mcp-core/mcp_client.py:103-127 | the corrected wrapper of the "## Findings" row: it relays the result's content exactly when a session is open, the input gives arguments and the server answers, and returns the error text otherwise |
| McpClient.WrapperResultLost | mcp-core/mcp_client.py:124-125 | whenever a connected session answers, the wrapper as written returns the error text where the corrected one relays the answer |
| McpClient.WrappersAgreeOnFailure | mcp-core/mcp_client.py:124-127 | on every failing call (no session, undecodable input, a raising server) the two wrappers give the same error text |
| McpClient.DocumentExecute | mcp-core/mcp_client.py:305-324 | "list" returns the file names; "read" of an existing file returns filename and content as `read_text()` returns it, of an absent one "File <name> not found"; anything else the invalid-action error |
| FastMcp.ReadFile | mcp-core/fastmcp_project_template.py:269-297 | a present file is read as `read_text()` returns it (line ends as "\n"), with size equal to the length of that text; a missing one gives "File not found"; the reply always echoes the filename |
| FastMcp.SetupWorkspace | mcp-core/fastmcp_project_template.py:228-231 | a file that already existed keeps its content; afterwards the files are exactly the old ones plus the sample names, and a newly created sample holds its text |
| FastMcp.ListFiles | mcp-core/fastmcp_project_template.py:299-323 | one entry per workspace file, in listing order, with its size in UTF-8 bytes, and file_count equals the number of entries |
| FastMcp.Utf8SizeBounds | mcp-core/fastmcp_project_template.py:307 | a file's byte size lies between one and four bytes per character, and equals its length exactly when the text is ASCII |
| FastMcp.MatchLines | mcp-core/fastmcp_project_template.py:336-342 | the loop over the lines collects exactly the matching lines of the specification `AllMatches` |
| FastMcp.SearchContent | mcp-core/fastmcp_project_template.py:325-360 | the results are those of `SearchResults` over the files' texts as `read_text()` returns them, files_with_matches equals their number, and files_searched counts the workspace files |
| FastMcp.AllMatchesSound | mcp-core/fastmcp_project_template.py:337-342 | every reported match names, 1-based, a line that contains the lowercased query, and carries that line stripped |
| FastMcp.AllMatchesAscending | mcp-core/fastmcp_project_template.py:338 | reported line numbers strictly ascend |
| FastMcp.AllMatchesComplete | mcp-core/fastmcp_project_template.py:337-342 | every line containing the query is reported |
| FastMcp.SearchResultsExact | mcp-core/fastmcp_project_template.py:331-348 | each result is a listed file whose content contains the query, with at most 5 matches and match_count at least that many; every such file is reported |
| FastMcp.CompletedCount | mcp-core/fastmcp_project_template.py:486 | completed tasks never exceed all tasks, with equality iff every task is "Completed" |
| FastMcp.ProjectProgress | mcp-core/fastmcp_project_template.py:485-487 | the percentage lies in [0, 100], is 0 with no tasks, and is 100 iff there are tasks and all are completed |
| FastMcp.ProjectsSummary | mcp-core/fastmcp_project_template.py:511-518 | one percentage per project row; NULL counts read as 0, no tasks gives 0, and the result stays within [0, 100] when completed ≤ total |
| OllamaLoop.PartTexts | mcp-core/example/client.py:110-124 | the list items rendered never outnumber the items (other dict types are dropped) |
| OllamaLoop.PromptParts | mcp-core/example/client.py:97-125 | at most one prompt part per message |
| OllamaLoop.ConvertMessagesToPrompt | mcp-core/example/client.py:95-127 | the loop builds exactly the message parts of `PromptParts`, joined by blank lines |
| OllamaLoop.PromptPartsAppend | mcp-core/example/client.py:97-98 | the prompt of a longer conversation extends that of its prefix: parts are rendered message by message |
| OllamaLoop.PartTextsKeepAll | mcp-core/example/client.py:113-123 | text, tool_use, tool_result and non-dict items each give exactly their own text, in order |
| OllamaLoop.OtherDictsDropped | mcp-core/example/client.py:113-120 | dicts of any other type contribute nothing |
| OllamaLoop.TextMessageParts | mcp-core/example/client.py:104-109 | string content renders as "TOOL_RESULT: c" for role "tool" and as "ROLE: c", with the role uppercased, otherwise |
| OllamaLoop.FormatToolsForPrompt | mcp-core/example/client.py:129-149 | the loop emits one entry per tool, joined by newlines |
| OllamaLoop.ToolEntryShape | mcp-core/example/client.py:136-146 | each entry starts with "- name: description" and has a Parameters line iff the tool has properties |
| OllamaLoop.ParamTextShape | mcp-core/example/client.py:140-143 | a parameter shows its type, "any" when missing, and ": description" when it has one |
| OllamaLoop.SentPrompt | mcp-core/example/client.py:21-27 | the prompt ends with the converted conversation and, with tools, starts with the tool instructions |
| OllamaLoop.GenerateReply | mcp-core/example/client.py:57-93 | exactly one content item in every branch, including the HTTP failure; without tools it is the raw text |
| OllamaLoop.ToolUseOnlyWithTools | mcp-core/example/client.py:61-71 | the reply is a tool_use iff tools were given and the reply decodes to an object with "tool_use", which is then passed on as is |
| OllamaLoop.RawTextFallback | mcp-core/example/client.py:77-86 | an undecodable reply, or one with neither "tool_use" nor "response", comes back as the raw text |
| OllamaLoop.Reply | mcp-core/example/client.py:19-93 | one content item; without tools always a text item |
| OllamaLoop.Generate | mcp-core/example/client.py:19-93 | the method's reply is the specification `Reply` |
| OllamaLoop.Gather | mcp-core/example/client.py:224-262 | each tool_use appends exactly two messages, whether the call succeeds or fails, and marks the iteration as having used a tool |
| OllamaLoop.GatherReply | mcp-core/example/client.py:224-262 | the loop over the reply's items computes `Gather` |
| OllamaLoop.ToolUseAppendsExchange | mcp-core/example/client.py:240-262 | one tool_use appends the assistant's tool_use message, then the tool result or the error text |
| OllamaLoop.ExchangeParts | mcp-core/example/client.py:117-118 | the appended pair renders as "ASSISTANT: Used tool ... with arguments: ..." then "TOOL_RESULT: Tool result: ..." |
| OllamaLoop.Loop | mcp-core/example/client.py:204-289 | the loop makes at least one and at most 11 generate calls: 10 iterations plus the summary |
| OllamaLoop.LoopStep | mcp-core/example/client.py:207-270 | an iteration without tool_use returns its joined text; one with tool_use continues with the two messages per call appended |
| OllamaLoop.NoToolsAnswersAtOnce | mcp-core/example/client.py:272-276 | with no tools the first reply is the answer, after one generate call |
| OllamaLoop.Summarize | mcp-core/example/client.py:274-289 | the final call adds the summary request to a copy of the messages and passes no tools |
| OllamaLoop.Client.constructor | mcp-core/example/client.py:153-157 | a new client has no session |
| OllamaLoop.Client.ConnectToServer | mcp-core/example/client.py:159-186 | the command is python for ".py" and node for ".js"; any other path is rejected before a session starts |
| OllamaLoop.Client.ProcessQuery | mcp-core/example/client.py:188-296 | without a session the query fails; with one the result is the bounded loop `Loop` from the opening message |
| OllamaLoop.ServerCommand | mcp-core/example/client.py:165-170 | "python" iff the path ends in ".py", "node" iff it ends in ".js", and rejection otherwise |
| OllamaLoop.ExtensionsExclusive | mcp-core/example/client.py:165-166 | no path ends in both ".py" and ".js" |
| Ledger.NewerTransitive | finance-mcp-app/finance_mcp_tool.py:188 | the listing order (date descending, then id descending) is transitive |
| Ledger.NewerTotal | finance-mcp-app/finance_mcp_tool.py:188 | any two transactions with different ids are ordered one way or the other |
| Ledger.NewerIrreflexive | finance-mcp-app/finance_mcp_tool.py:188 | no transaction precedes itself |
| Ledger.Latest | finance-mcp-app/finance_mcp_tool.py:188-190 | `LIMIT n` returns n rows, or all rows when there are fewer |
| Ledger.LatestIsTop | finance-mcp-app/finance_mcp_tool.py:188-190 | the rows returned are stored rows in listing order, and every row left out comes after every row returned |
| Ledger.Filter | finance-mcp-app/finance_mcp_tool.py:179-186 | a row is kept iff it has the category (when one is given) and a date starting "<month>-" (when a month is given) |
| Ledger.BuildListingQuery | finance-mcp-app/finance_mcp_tool.py:176-189 | one placeholder per parameter: the category clause iff a category is given, the month clause (with "<month>-%") iff a month is given, and the limit always last |
| Ledger.Listing | finance-mcp-app/finance_mcp_tool.py:172-197 | `ORDER BY date DESC, id DESC LIMIT ?` over the filtered rows: exactly min(limit, number of matching rows) rows (all of them for a negative limit), each a stored row matching the filters, newest first, and every matching row left out is older than every row returned |
| Ledger.ByCategoryExact | finance-mcp-app/finance_mcp_tool.py:225-231 | a category appears in expenses_by_category iff it has an expense in the month, with the sum of those expenses; absent categories spent 0 |
| Ledger.SpentNonNegative | finance-mcp-app/finance_mcp_tool.py:211-223 | `COALESCE(SUM(amount), 0)` of non-negative amounts is non-negative |
| Ledger.SavingsRate | finance-mcp-app/finance_mcp_tool.py:244 | the savings rate is 0 when income is not positive |
| Ledger.SavingsRateBounds | finance-mcp-app/finance_mcp_tool.py:233-244 | with positive income the rate is at most 100, is 100 iff nothing was spent, and is non-negative iff expenses do not exceed income |
| Ledger.Database.constructor | finance-mcp-app/finance_mcp_tool.py:26-66 | a new database has empty transaction, category and goal tables |
| Ledger.Database.InsertCategory | finance-mcp-app/finance_mcp_tool.py:84-87 | `INSERT OR IGNORE` on the unique name: a new name appends the row, a taken name leaves the table as it was, and the other tables are untouched |
| Ledger.Database.InsertCategories | finance-mcp-app/finance_mcp_tool.py:83-87 | inserting each row in turn keeps every existing row, and the names afterwards are the old names plus the inserted ones; when all names were taken nothing changes |
| Ledger.Database.SetupCategories | finance-mcp-app/finance_mcp_tool.py:68-86 | `INSERT OR IGNORE` adds the default categories whose names are missing and keeps every existing row; run again it changes nothing |
| Ledger.Database.InsertTransaction | finance-mcp-app/finance_mcp_tool.py:148-163 | a transaction of type income or expense is appended under the next id, which is returned; any other type violates the CHECK constraint and inserts nothing |
| Ledger.Database.InsertGoal | finance-mcp-app/finance_mcp_tool.py:279-298 | the goal is appended under the next id with current amount 0, and its target date as given, NULL (`None`) when there is none |
| FinanceTool.ActionOf | finance-mcp-app/finance_mcp_tool.py:122-143 | a name is dispatched iff it is one of the ten actions `execute` tests for |
| FinanceTool.SchemaMismatch | finance-mcp-app/finance_mcp_tool.py:99-103 | update_goal, get_categories and import_csv are advertised but answer "Unknown action"; set_budget, get_budget and monthly_summary are advertised but reach undefined methods |
| FinanceTool.AddTransactionDefaults | finance-mcp-app/finance_mcp_tool.py:148-151 | without description, type or date the transaction is an expense with an empty description, dated today |
| FinanceTool.ListTransactions | finance-mcp-app/finance_mcp_tool.py:172-197 | count is the number of rows returned, at most the limit (default 10), each a stored row matching the category and month filters; the rows are `Listing`'s, so newest first and the newest of the matching rows |
| FinanceTool.Summary | finance-mcp-app/finance_mcp_tool.py:199-245 | period is the month asked for or the current one; income and expenses are the month's sums; net = income − expenses; savings rate is net/income·100 when income > 0, else 0; the category map holds exactly the categories with expenses, with their sums |
| FinanceTool.WindowStart | finance-mcp-app/finance_mcp_tool.py:253-254 | the report window starts on the first of the month when days ≥ 30, else today |
| FinanceTool.ReportExact | finance-mcp-app/finance_mcp_tool.py:256-263 | a category is in the report iff it has expenses in the window, with their count and total |
| FinanceTool.SpendingOf | finance-mcp-app/finance_mcp_tool.py:247-277 | period_days echoes the days asked for (default 30) |
| FinanceTool.DaysOnlyPickWindow | finance-mcp-app/finance_mcp_tool.py:253-254 | two day counts on the same side of 30 give the same report: days has no other effect |
| FinanceTool.ProgressBounds | finance-mcp-app/finance_mcp_tool.py:310-314 | with a positive target and 0 ≤ current ≤ target, progress lies in [0, 100] and is 100 iff the goal is reached |
| FinanceTool.ListedGoalsProgress | finance-mcp-app/finance_mcp_tool.py:300-318 | every listed goal is a stored goal with its own progress; with saved amounts within positive targets, each progress lies in [0, 100] and is 100 iff that goal is reached |
| FinanceTool.QuarterSavedGoal | finance-mcp-app/finance_mcp_tool.py:311-314 | goals saved 2500 of 10000, 750 of 3000 and 500 of 2500 report 25%, 25% and 20% |
| FinanceTool.ListedGoalsHaveNoProgress | finance-mcp-app/finance_mcp_tool.py:300-318 | goals whose current amount was never raised from its default 0 are listed with 0% progress |
| FinanceTool.GoalViews | finance-mcp-app/finance_mcp_tool.py:309-314 | the loop computes the progress of every goal as `GoalListing` specifies |
| FinanceTool.Export | finance-mcp-app/finance_mcp_tool.py:320-347 | csv (the default) exports every transaction to a ".csv" file and reports their number; any other format gives "Unsupported export format" |
| FinanceTool.Tool.constructor | finance-mcp-app/finance_mcp_tool.py:17-24 | creating the tool sets up the default categories and leaves transactions and goals as they were |
| FinanceTool.Tool.AddTransactionCall | finance-mcp-app/finance_mcp_tool.py:148-170 | with amount and category and a valid type, exactly one transaction is appended and reported; otherwise the call raises and nothing changes |
| FinanceTool.Tool.AddGoalCall | finance-mcp-app/finance_mcp_tool.py:279-298 | with a name and a target the goal is appended and reported, its target date NULL (`None`) when the call gives none; otherwise the call raises and nothing changes |
| FinanceTool.Tool.GetTransactionsCall | finance-mcp-app/finance_mcp_tool.py:172-197 | the reply is `ListTransactions` of the stored rows |
| FinanceTool.Tool.Execute | finance-mcp-app/finance_mcp_tool.py:120-146 | an unknown action gives "Unknown action: <action>", undefined handlers fail, only add_transaction and add_goal write, and each other action answers as its specification function |
| FinanceServer.AddTransaction | finance-mcp-app/finance_mcp_server.py:96-143 | the date defaults to today; a valid type appends the row and echoes id, amount, category, description, type and date; an invalid one fails and writes nothing |
| FinanceServer.GetTransactions | finance-mcp-app/finance_mcp_server.py:145-189 | the rows are the filtered listing (at most `limit`), count is their number, and the filters used are echoed |
| FinanceServer.FinancialSummary | finance-mcp-app/finance_mcp_server.py:191-248 | the month defaults to the current one; net = income − expenses; savings rate is 0 unless income > 0; the category map holds exactly the month's expense categories with their sums |
| FinanceServer.AddFinancialGoal | finance-mcp-app/finance_mcp_server.py:250-289 | the goal is appended under the next id with current amount 0 and the target date as given, NULL (`None`) when it is omitted, and its details are echoed |
| FinanceServer.Budgeted | finance-mcp-app/finance_mcp_server.py:305-306 | exactly the expense categories with a budget above 0 are checked |
| FinanceServer.LevelOf | finance-mcp-app/finance_mcp_server.py:334-338 | percentage ≥ 100 is "OVER BUDGET", 80 ≤ p < 100 is "WARNING", below 80 there is no alert |
| FinanceServer.Alerts | finance-mcp-app/finance_mcp_server.py:320-338 | at most one alert per budget entry |
| FinanceServer.AlertsCount | finance-mcp-app/finance_mcp_server.py:320-338 | the number of alerts equals the number of entries at 80% or more; none when every entry is below 80% |
| FinanceServer.GetBudgetStatus | finance-mcp-app/finance_mcp_server.py:291-352 | one entry per budgeted category, in order, with this month's spending; total_categories equals the number of entries; the alerts are those of `Alerts` |
| FinanceServer.EntryMeaning | finance-mcp-app/finance_mcp_server.py:320-323 | spent is the month's expense sum for the category (0 when there is none) and remaining = budget − spent |
| FinanceServer.DemoTxns | finance-mcp-app/finance_mcp_server.py:382-387 | four demo rows, dated today, under consecutive ids, each of a valid type |
| FinanceServer.SeedingIdempotent | finance-mcp-app/finance_mcp_server.py:379-395 | seeding a second time changes nothing: demo rows go only into an empty table |
| FinanceServer.SetupAndSeed | finance-mcp-app/finance_mcp_server.py:366-395 | start-up adds the missing default categories and seeds the demo rows only when there are no transactions |
| FinanceClient.CallMcpTool | finance-mcp-app/finance_mcp_client.py:253-297 | the four known tools answer with their canned replies (get_transactions with the three demo rows); any other name gives "Unknown tool: <name>" |
| FinanceClient.ScanWordEffect | finance-mcp-app/finance_mcp_client.py:107-117 | a number word sets the amount (or fails when it does not parse), income/salary/pay set income, expense/cost/spend set expense, grocery/groceries/food set the category "groceries" |
| FinanceClient.LastOfFinds | finance-mcp-app/finance_mcp_client.py:107-115 | the position found is that of the last word with one of the given roles (number, type or grocery word), and none is found exactly when no word has one |
| FinanceClient.ScanAmount | finance-mcp-app/finance_mcp_client.py:107-109 | the amount is that of the last word that is all digits once '$' and '.' are removed |
| FinanceClient.ScanKind | finance-mcp-app/finance_mcp_client.py:110-113 | the type is decided by the last income or expense word, "expense" by default |
| FinanceClient.ScanCategory | finance-mcp-app/finance_mcp_client.py:114-115 | the category is "groceries" iff a grocery word occurs, else "general" |
| FinanceClient.ScanNoAmount | finance-mcp-app/finance_mcp_client.py:117-118 | with no number word the amount stays unset |
| FinanceClient.ScanFails | finance-mcp-app/finance_mcp_client.py:108-109 | the scan fails only at a number word whose text does not parse as a float |
| FinanceClient.ScanRequest | finance-mcp-app/finance_mcp_client.py:102-115 | the loop over the words computes `ScanWords` |
| FinanceClient.Fields | finance-mcp-app/finance_mcp_client.py:123 | one stripped field per '|'-separated part |
| FinanceClient.AddTransactionTool | finance-mcp-app/finance_mcp_client.py:96-146 | the tool's reply is `AddTransactionReply` of the query |
| FinanceClient.FreeTextAmount | finance-mcp-app/finance_mcp_client.py:117-118 | free text without a number asks "Please specify an amount for the transaction." and calls no tool |
| FinanceClient.SplitFour | finance-mcp-app/finance_mcp_client.py:123 | four fields joined by '|' split back into the same four |
| FinanceClient.FieldsOfFour | finance-mcp-app/finance_mcp_client.py:123 | four stripped fields joined by '|' come back as the same four |
| FinanceClient.StructuredRequest | finance-mcp-app/finance_mcp_client.py:122-144 | "amount\|category\|description\|type" is confirmed with the amount read without '$', and the category, description and type of fields two to four |
| FinanceClient.ListingParams | finance-mcp-app/finance_mcp_client.py:150-159 | the limit is set iff the first field is all digits, and category and month only when their fields are non-empty; a blank query sends no parameters |
| FinanceClient.TxnLines | finance-mcp-app/finance_mcp_client.py:166-167 | one line "  <date>: $<amount> - <category> (<type>)" per transaction |
| FinanceClient.ListingLines | finance-mcp-app/finance_mcp_client.py:164-168 | a count header, then the lines of at most the first five transactions |
| FinanceClient.FormatListing | finance-mcp-app/finance_mcp_client.py:164-168 | the loop writes exactly `ListingLines`, each ended by a newline |
| FinanceClient.GetTransactionsTool | finance-mcp-app/finance_mcp_client.py:148-173 | the tool lists the canned demo rows |
| FinanceClient.SummaryHead | finance-mcp-app/finance_mcp_client.py:183-187 | the summary opens with five lines: period, income, expenses, net and savings rate |
| FinanceClient.SummaryLines | finance-mcp-app/finance_mcp_client.py:183-192 | "Top expenses:" and at most three category lines follow iff there are categories |
| FinanceClient.CategoryLines | finance-mcp-app/finance_mcp_client.py:191-192 | one "    - <cat>: $<amount>" line per category |
| FinanceClient.FormatSummary | finance-mcp-app/finance_mcp_client.py:182-194 | the method writes exactly `SummaryLines`, each ended by a newline |
| FinanceClient.GetSummaryTool | finance-mcp-app/finance_mcp_client.py:175-199 | the tool renders the canned summary |
| FinanceClient.AlertLines | finance-mcp-app/finance_mcp_client.py:211-212 | each alert is indented by two spaces |
| FinanceClient.StatusLines | finance-mcp-app/finance_mcp_client.py:216-217 | one "<cat>: $<spent>/$<budget> (<pct>%)" line per status |
| FinanceClient.FormatAlerts | finance-mcp-app/finance_mcp_client.py:209-214 | the "🚨 ALERTS:" block and a blank line appear iff there are alerts |
| FinanceClient.FormatStatuses | finance-mcp-app/finance_mcp_client.py:216-217 | at most the first five budget lines are written |
| FinanceClient.FormatBudget | finance-mcp-app/finance_mcp_client.py:206-219 | the method writes exactly `BudgetLines`: header, alerts block, budget lines |
| FinanceClient.GetBudgetTool | finance-mcp-app/finance_mcp_client.py:201-225 | the tool renders the canned budget status |
| FinanceClient.Route | finance-mcp-app/finance_mcp_client.py:316-337 | add words win over show, summary and budget words; help only when none matches |
| FinanceClient.OverspentRoutesToAdd | finance-mcp-app/finance_mcp_client.py:316 | "overspent" contains "spent", so it routes to add-transaction and never to the budget tool |
| FinanceClient.SimpleAgent | finance-mcp-app/finance_mcp_client.py:311-340 | each route calls its tool: the whole input to add-transaction, "" to the others, or the help text |
| FinanceWeb.AddTransaction | finance-mcp-app/finance_web_mcp.py:47-59 | the call succeeds exactly when the tool's reply to the "amount\|category\|description\|type" query contains "✅"; otherwise that reply is the error |
| FinanceWeb.AddTransactionRoundTrip | finance-mcp-app/finance_web_mcp.py:51-57 | for fields without '\|' and a readable amount, adding through the web layer succeeds with the tool's confirmation of exactly those fields |
| FinanceWeb.ConfirmationMarked | finance-mcp-app/finance_web_mcp.py:55 | every confirmation the tool writes carries the "✅" mark the web layer tests for |
| FinanceWeb.ParseTxnLine | finance-mcp-app/finance_web_mcp.py:72-93 | a parsed transaction line always has an empty description |
| FinanceWeb.TxnRows | finance-mcp-app/finance_web_mcp.py:71-93 | the loop keeps every row gathered so far and adds at most one row per line |
| FinanceWeb.TxnRowsDescriptions | finance-mcp-app/finance_web_mcp.py:92 | every transaction the loop gathers has an empty description |
| FinanceWeb.ParseTransactions | finance-mcp-app/finance_web_mcp.py:67-98 | a reply without both "📋" and "transactions:" gives "Failed to parse transactions" |
| FinanceWeb.GetTransactions | finance-mcp-app/finance_web_mcp.py:61-100 | the loop over the reply's lines after the header computes `ParseTransactions` |
| FinanceWeb.CategoryAndTypeRoundTrip | finance-mcp-app/finance_web_mcp.py:80-82 | "<category> (<type>)" splits back into the category and the type when neither holds a parenthesis |
| FinanceWeb.TxnLineRoundTrip | finance-mcp-app/finance_web_mcp.py:72-93 | a listing line written by the tool parses back to its date, amount, category and type, with the description dropped |
| FinanceWeb.TxnRowsRoundTrip | finance-mcp-app/finance_web_mcp.py:71-93 | the listed lines of a sequence of transactions parse back to the same transactions, in order, with descriptions dropped |
| FinanceWeb.ListingRoundTrip | finance-mcp-app/finance_web_mcp.py:61-98 | the tool's whole listing parses back to the first five transactions it was given, in order, with descriptions dropped |
| FinanceWeb.FirstMarked | finance-mcp-app/finance_web_mcp.py:125-128 | the index of the first "Top expenses:" line, or the length when there is none |
| FinanceWeb.ParseSummaryAsWritten | finance-mcp-app/finance_web_mcp.py:108-141 | the parse as the code has it, with the figures loop over every line: a reply without both "📊" and "Financial Summary" gives "Failed to parse summary" |
| FinanceWeb.ParseSummary | finance-mcp-app/finance_web_mcp.py:108-141 | the corrected parse of the "## Findings" row, whose figures loop stops at "Top expenses:": a reply without both "📊" and "Financial Summary" gives "Failed to parse summary" |
| FinanceWeb.FiguresPrefixSucceeds | finance-mcp-app/finance_web_mcp.py:112-122 | a figures loop that gets through a run of lines without raising gets through each of its prefixes |
| FinanceWeb.AsWrittenSameCategories | finance-mcp-app/finance_web_mcp.py:112-141 | the parse as written and the corrected one differ in the figures only: whenever the first succeeds, so does the second, with the same top-expense categories, and both reject an unmarked reply alike |
| FinanceWeb.GetFinancialSummary | finance-mcp-app/finance_web_mcp.py:102-143 | the corrected parse of the "## Findings" row, as loops: its two loops over the reply's lines compute `ParseSummary`, not the code's own figures loop over every line (`ParseSummaryAsWritten`) |
| FinanceWeb.SummaryLinesMarked | finance-mcp-app/finance_web_mcp.py:108 | every summary the tool writes carries both marks the web layer tests for |
| FinanceWeb.SummaryRoundTrip | finance-mcp-app/finance_web_mcp.py:102-141 | the tool's summary parses back to its period, income, expenses, net and savings rate and to the amounts of its top categories |
| FinanceWeb.SummaryAsWrittenOverwrites | finance-mcp-app/finance_web_mcp.py:112-122 | with a top category named "Business Expenses", the figures loop as written reads that category's line as the expenses total, while the corrected parse keeps the real total |
| FinanceWeb.BudgetOfGrows | finance-mcp-app/finance_web_mcp.py:156-200 | the loop keeps every alert and row gathered so far (as prefixes), adds at most one of each per line, and stays in the alerts section once it is entered |
| FinanceWeb.ParseBudget | finance-mcp-app/finance_web_mcp.py:150-211 | a reply without both "💰" and "Budget Status" gives "Failed to parse budget status"; a parsed one carries the given month and no more alerts and rows than twice its lines |
| FinanceWeb.GetBudgetStatus | finance-mcp-app/finance_web_mcp.py:145-213 | the loop over the reply's lines computes `ParseBudget` |
| FinanceWeb.OverBudgetAlert | finance-mcp-app/finance_web_mcp.py:161-177 | an "🚨 OVER BUDGET: <category> (<p>%)" line is a danger alert for that category with percentage p |
| FinanceWeb.WarningAlert | finance-mcp-app/finance_web_mcp.py:161-177 | a "⚠️ WARNING: <category> (<p>%)" line is a warning alert for that category with percentage p |
| FinanceWeb.AlertRoundTrip | finance-mcp-app/finance_web_mcp.py:158-177 | an alert line written by the budget tool parses back to its category and percentage, as danger exactly when the tool judged the category over budget |
| FinanceWeb.StatusText | finance-mcp-app/finance_web_mcp.py:178-195 | "<category>: $<spent>/$<budget> (<p>%)" parses to that category, spent, budget and percentage, with budget minus spent remaining |
| FinanceWeb.StatusRowOf | finance-mcp-app/finance_web_mcp.py:178-195 | a status line written by the budget tool parses back to its category, spent, budget and percentage |
| FinanceWeb.ParsedAlerts | finance-mcp-app/finance_web_mcp.py:161-177 | one parsed alert per alert line, in order |
| FinanceWeb.ShownRows | finance-mcp-app/finance_web_mcp.py:178-195 | one parsed row per status line, in order |
| FinanceWeb.BudgetLinesMarked | finance-mcp-app/finance_web_mcp.py:150 | every budget reply the tool writes carries both marks the web layer tests for |
| FinanceWeb.BudgetScanLines | finance-mcp-app/finance_web_mcp.py:156-200 | scanning the tool's budget reply yields its alerts in order and the rows of its first five categories |
| FinanceWeb.BudgetRoundTrip | finance-mcp-app/finance_web_mcp.py:145-211 | the tool's budget reply parses back to all its alerts and the first five status rows, with the given month |
| FinanceAgent.PipeSplits | finance-mcp-app/finance_langchain_integration.py:36-38 | a query has the two fields `add_expense` needs exactly when it holds a '\|' |
| FinanceAgent.ExpenseFields | finance-mcp-app/finance_langchain_integration.py:36-42 | the usage message is given exactly when the query has no '\|'; a parsed category and description are stripped |
| FinanceAgent.IncomeFields | finance-mcp-app/finance_langchain_integration.py:62-65 | `add_income` never asks for usage; without a '\|' the category is "Income" and the description empty; parsed fields are stripped |
| FinanceAgent.SplitThree | finance-mcp-app/finance_langchain_integration.py:36 | three fields without '\|' joined by '\|' split back into the same three |
| FinanceAgent.FieldsRoundTrip | finance-mcp-app/finance_langchain_integration.py:36-42 | "amount\|category\|description" with clean fields reads back as that amount, category and description, for expenses and for income |
| FinanceAgent.SearchFindsFirstDigit | finance-mcp-app/finance_langchain_integration.py:247 | the amount search fails exactly when no digit follows the start, and otherwise matches the run beginning at the first digit |
| FinanceAgent.SearchContains | finance-mcp-app/finance_langchain_integration.py:247-251 | the search succeeds exactly when the text has a digit, and what it returns occurs in the text |
| FinanceAgent.AmountText | finance-mcp-app/finance_langchain_integration.py:247-251 | no amount exactly when the text has no ASCII digit; an amount starts and ends with a digit, holds only digits and '.', and occurs in the text |
| FinanceAgent.FirstDigitAfter | finance-mcp-app/finance_langchain_integration.py:247 | the first digit of "<no digits><digits>…" is right after the digit-free prefix |
| FinanceAgent.AmountWhole | finance-mcp-app/finance_langchain_integration.py:247-251 | in "<no digits><digits><not a digit or '.'>…" the amount is the whole digit run |
| FinanceAgent.AmountCents | finance-mcp-app/finance_langchain_integration.py:247-251 | a run followed by '.' and two digits is taken with its cents |
| FinanceAgent.AmountOneDecimal | finance-mcp-app/finance_langchain_integration.py:247-251 | a run followed by '.' and a single digit is taken without the decimal part |
| FinanceAgent.ExpenseCategory | finance-mcp-app/finance_langchain_integration.py:254-266 | the category is one of the six names; a food word always gives "Food & Dining"; "Shopping" only when no food or transport word matched; "Other" exactly when no keyword list matched |
| FinanceAgent.BoughtCoffeeIsFood | finance-mcp-app/finance_langchain_integration.py:257-262 | "bought … coffee" is a shopping word too, but food comes first and wins |
| FinanceAgent.IncomeCategory | finance-mcp-app/finance_langchain_integration.py:286-294 | the category is one of the four names; a salary word always gives "Salary"; "Income" exactly when no list matched |
| FinanceAgent.Description | finance-mcp-app/finance_langchain_integration.py:269 | the description is stripped |
| FinanceAgent.DescriptionChars | finance-mcp-app/finance_langchain_integration.py:269 | every character of the description comes from the sentence and none is a '$' |
| FinanceAgent.CleanAmount | finance-mcp-app/finance_langchain_integration.py:251-272 | a matched amount holds no '\|' or '$' and no surrounding blanks, so it survives the pipe query unchanged |
| FinanceAgent.CleanCategory | finance-mcp-app/finance_langchain_integration.py:255-294 | no category name holds a '\|' or surrounding blanks |
| FinanceAgent.ExpenseRequestParsed | finance-mcp-app/finance_langchain_integration.py:243-273 | the pipe query built from a sentence without '\|' reads back as the matched amount, the keyword category and the description |
| FinanceAgent.IncomeRequestParsed | finance-mcp-app/finance_langchain_integration.py:275-299 | the same for income requests |
| FinanceAgent.CountsOfQuery | finance-mcp-app/finance_langchain_integration.py:101-122 | a decimal count is read as itself; any other query gives 5 transactions and 30 days |
| FinanceAgent.TenAndThirty | finance-mcp-app/finance_langchain_integration.py:226-231 | the router's "10" and "30" are read as 10 transactions and 30 days |
| FinanceAgent.CategoryBlockLines | finance-mcp-app/finance_langchain_integration.py:165-170 | the block has one line per category |
| FinanceAgent.FormatCategories | finance-mcp-app/finance_langchain_integration.py:165-170 | the loop writes the lines of the first three categories only |
| FinanceAgent.AtMostThreeCategories | finance-mcp-app/finance_langchain_integration.py:168 | the formatted block never has more than three lines |
| FinanceAgent.IntentOf | finance-mcp-app/finance_langchain_integration.py:211-241 | the expense branch is taken exactly when an expense word occurs in the lower-cased text; help exactly when no list matched |
| FinanceAgent.PaidMeIsExpense | finance-mcp-app/finance_langchain_integration.py:214-218 | "paid me" holds "paid", so income sentences of that form go to the expense handler |
| FinanceAgent.CallOf | finance-mcp-app/finance_langchain_integration.py:207-299 | income is posted only without an expense word; posting needs a digit in the sentence; transactions are asked for 10 at a time and the report for 30 days |
| FinanceAgent.ExpenseSentenceRecorded | finance-mcp-app/finance_langchain_integration.py:214-273 | an expense sentence with an amount posts that amount with its keyword category and description |
| FinanceAgent.NoDigitNoPost | finance-mcp-app/finance_langchain_integration.py:247-281 | a sentence without digits posts nothing and gets the matching "couldn't find an amount" reply |
| FinanceAgent.Agent.constructor | finance-mcp-app/finance_langchain_integration.py:24-28 | the agent wraps a fresh finance tool over the given database, which keeps its transactions and goals |
| FinanceAgent.Agent.Post | finance-mcp-app/finance_langchain_integration.py:44-78 | the transaction is appended with the next id and today's date, and the reply confirms it with the amount to two decimals; goals and categories are untouched |
| FinanceAgent.Agent.AddExpense | finance-mcp-app/finance_langchain_integration.py:33-57 | the reply is that for the parsed fields; only well-formed fields add an expense, otherwise the database is unchanged |
| FinanceAgent.Agent.AddIncome | finance-mcp-app/finance_langchain_integration.py:59-80 | the same for income, with the category defaulting to "Income" |
| FinanceAgent.Agent.GetSummary | finance-mcp-app/finance_langchain_integration.py:82-96 | the reply renders the tool's summary and the database is unchanged |
| FinanceAgent.Agent.GetRecentTransactions | finance-mcp-app/finance_langchain_integration.py:98-117 | the reply renders the tool's listing with the limit read from the query, and the database is unchanged |
| FinanceAgent.Agent.SpendingReport | finance-mcp-app/finance_langchain_integration.py:119-134 | the reply renders the tool's spending report for the days read from the query, and the database is unchanged |
| FinanceAgent.Agent.HandleExpenseRequest | finance-mcp-app/finance_langchain_integration.py:243-273 | the reply and the new transactions are those of the expense call the sentence determines |
| FinanceAgent.Agent.HandleIncomeRequest | finance-mcp-app/finance_langchain_integration.py:275-299 | the reply and the new transactions are those of the income call the sentence determines |
| FinanceAgent.Agent.ProcessRequest | finance-mcp-app/finance_langchain_integration.py:207-241 | the reply and the new transactions are those of the call the router picks for the sentence; goals and categories are untouched |
| FinanceWebApp.BudgetRows | finance-mcp-app/finance_web_app.py:47-48 | the budgets are exactly the (name, budget) pairs of expense categories with a positive budget |
| FinanceWebApp.BudgetRowsDistinct | finance-mcp-app/finance_web_app.py:48 | with unique category names, no category appears twice among the budgets, as in the dictionary the query fills |
| FinanceWebApp.Percentage | finance-mcp-app/finance_web_app.py:54 | with a positive budget the percentage is spent over budget times 100; otherwise it is 0 |
| FinanceWebApp.LevelOf | finance-mcp-app/finance_web_app.py:56-82 | danger exactly at 100% or more, warning from 80% up to 100%, info from 60% up to 80%, and no alert below 60% |
| FinanceWebApp.AlertsOf | examples/finance_web_app.py:52-82 | a category gets an alert exactly when at least 60% of its budget is spent; the alert carries the category, budget, spent amount, percentage and the level that percentage gives |
| FinanceWebApp.AlertsSound | examples/finance_web_app.py:52-82 | every alert is at 60% or more, for a budgeted category, with the amount the summary gives for it |
| FinanceWebApp.AlertsComplete | examples/finance_web_app.py:52-56 | every budgeted category at 60% or more has its alert in the list |
| FinanceWebApp.AlertCategories | examples/finance_web_app.py:57-82 | the category of each alert, in order |
| FinanceWebApp.OneAlertPerCategory | examples/finance_web_app.py:52 | with distinct budget names no category is alerted twice, and there are no more alerts than budgets |
| FinanceWebApp.NoSpendingNoAlert | examples/finance_web_app.py:53 | a budgeted category with no spending in the summary gets no alert |
| FinanceWebApp.AlertsFor | finance-mcp-app/finance_web_app.py:36-38 | a failed summary gives no alerts; there are never more alerts than budgets |
| FinanceWebApp.AlertsLength | finance-mcp-app/finance_web_app.py:52 | one loop step per budget adds at most one alert |
| FinanceWebApp.CollectAlerts | finance-mcp-app/finance_web_app.py:33-84 | the loop over the budgets computes `AlertsFor` |
| FinanceWebApp.BudgetAlertSystem.constructor | finance-mcp-app/finance_web_app.py:25-26 | the alert system keeps the finance tool it is given |
| FinanceWebApp.BudgetAlertSystem.CheckBudgetAlerts | finance-mcp-app/finance_web_app.py:28-84 | the alerts are those of the month's summary (the current month by default) against the category budgets; the database is unchanged |
| FinanceWebApp.CheckedAlerts | examples/finance_web_app.py:28-84 | whatever the transactions, every alert is at 60% or more of a real budget, and no category is alerted twice |
| FinanceWebApp.ExpenseCategories | examples/finance_web_app.py:144 | exactly the expense rows of the table, each as often as it is stored, sorted by name |
| FinanceWebApp.ExpenseCategoriesOrdered | finance-mcp-app/finance_web_app.py:144 | with unique category names, each expense category is listed once and the names strictly ascend |
| FinanceWebApp.BudgetLines | examples/finance_web_app.py:153-158 | one line per category, with its spending from the summary, and its percentage as spent over budget times 100, or 0 without a budget |
| FinanceWebApp.BudgetsPage | examples/finance_web_app.py:134-162 | the lines are the expense categories in name order, each with this month's spending from the summary and a percentage of spent over budget times 100, 0 when the budget is not positive; the database is unchanged |
| FinanceWebApp.ChartShape | finance-mcp-app/finance_web_app.py:262-279 | the four series have one entry per `Calendar` index (the day 30·i days back), six in all, oldest first, labelled by the calendar, with net equal to income minus expenses |
| FinanceWebApp.SpendingChart | finance-mcp-app/finance_web_app.py:257-281 | the loop over the last six months computes `ChartUpTo` for six months; the database is unchanged |
| ReviewWorkflow.ClassifyTask | langchain-langgraph/04_multi_agent_workflow.py:39-63 | the classifier sets only the task type and the iteration count; the count restarts at 0 and the task type is stripped and lower-case |
| ReviewWorkflow.Specialist | langchain-langgraph/04_multi_agent_workflow.py:65-139 | each specialist replaces only the content, with the model's draft for its route on the last message |
| ReviewWorkflow.ReviewAgent | examples/04_multi_agent_workflow.py:128-148 | the review agent sets only the feedback and the count, and adds one review to the count |
| ReviewWorkflow.ReviseContent | examples/04_multi_agent_workflow.py:179-198 | a revision replaces only the content, with the model's revision of the draft under the feedback |
| ReviewWorkflow.FinalizeOutput | langchain-langgraph/04_multi_agent_workflow.py:163-168 | finalizing sets only the final output, to the current content |
| ReviewWorkflow.RouteByTaskType | examples/04_multi_agent_workflow.py:157-167 | each of "creative", "technical" and "analytical" picks its own specialist, and every other task type picks the general one |
| ReviewWorkflow.ShouldFinalize | langchain-langgraph/04_multi_agent_workflow.py:182-190 | the draft is finalized exactly when the lower-cased feedback contains "approved" or two reviews have been made |
| ReviewWorkflow.NotApprovedFinalizes | examples/04_multi_agent_workflow.py:169-177 | feedback saying "not approved" contains "approved" and so finalizes too |
| ReviewWorkflow.AgentNode | langchain-langgraph/04_multi_agent_workflow.py:232-242 | every route leads to one of the four specialist nodes |
| ReviewWorkflow.Next | langchain-langgraph/04_multi_agent_workflow.py:229-261 | only finalize ends the run; the specialists and revise go to review; review goes to finalize exactly when the draft should be finalized, and to revise otherwise |
| ReviewWorkflow.ClassifyThenAgent | examples/04_multi_agent_workflow.py:216-229 | the run starts at classify, whose route picks the next node, with the count at 0 and the messages kept |
| ReviewWorkflow.AgentThenReview | examples/04_multi_agent_workflow.py:231-234 | after a specialist the run goes on at review, with the count and the messages kept |
| ReviewWorkflow.SecondReview | examples/04_multi_agent_workflow.py:169-177 | once one review is made, the next review always finalizes |
| ReviewWorkflow.FirstReview | langchain-langgraph/04_multi_agent_workflow.py:250-261 | the first review finalizes at once when it should, and otherwise leads to one revision, a second review and finalize |
| ReviewWorkflow.ReviewLoop | langchain-langgraph/04_multi_agent_workflow.py:250-261 | from review with no review made, the run ends within the step limit after one or two reviews, with the final output equal to the content and the messages kept |
| ReviewWorkflow.InvokeFinishes | langchain-langgraph/04_multi_agent_workflow.py:293-300 | every invocation from the initial state finishes: classify, one specialist, then one or two reviews with a revision between them, then finalize, the final output being the last draft |
| FreePractice.ContentOf | examples/free_practice.py:21-27 | a message's own content; for a list, the content of its last message, and "[]" for an empty list |
| FreePractice.Excerpt | examples/free_practice.py:131 | at most the first 100 characters of the request, which is the whole request when it is short enough |
| FreePractice.Respond | examples/free_practice.py:29-41 | the tech reply exactly when a tech word occurs in the lower-cased text, the creative reply exactly when a creative word does and no tech word, the business reply exactly when a business word does and neither earlier list matches, the math reply exactly when a math word or operator does and none of the three earlier lists matches, and the general reply, quoting the excerpt, exactly when no list matches |
| FreePractice.InvokeIgnoresTemperature | examples/free_practice.py:13-27 | the reply never depends on the temperature, and a list ending in a message gets the same reply as that message |
| FreePractice.GeneralText | examples/free_practice.py:130-141 | the general reply opens by quoting the excerpt followed by "..." |
| FreePractice.PlanetIsBusiness | examples/free_practice.py:36-37 | keywords match inside words: a request with "planet" and no tech or creative word gets the business reply |
| FreePractice.OperatorIsMath | examples/free_practice.py:38-39 | a '+', '-', '*' or '/' anywhere, with no earlier list matched, gets the math reply |

## Left out

- SQL execution: tables are sequences of records, `WHERE` clauses are predicates, and a query is a list of clauses with one parameter each. `LIKE` is modelled as a date prefix; its wildcards and case rules are not.
- The order of `GROUP BY` results and of dictionary iteration over query rows: category amounts are a map, or a sequence in the order the rows are given.
- Float arithmetic and formatting: money is `real`. `str(x)`, `:.2f`, `:.1f` and `float(s)` are the fields of the `FinanceClient.Numbers` parameter. Round trips therefore hold for numbers whose text reads back as themselves.
- Round trips of text: they require that categories, dates and descriptions hold none of the separators the parsers split on (`|`, `(`, `: $`, newlines).
- The clock: `datetime.now()`, the current month and the six calendar months of the chart are parameters (`Clock`, `Calendar`).
- Exception messages: an operation that raises in Python ends in a `Raise`/`Failure` value or an unsuccessful reply whose text is not modelled.
- CSV writing in `_export_data`: only the format check and the record count are modelled, not the file.
- Flask routes, templates, `flash` and `jsonify`: only the alert, percentage and chart logic of the web app is modelled.
- Language-model calls, HTTP requests to Ollama, `json.loads` and MCP SDK sessions: they are oracle parameters. Async code is treated as sequential.
- `lower()`/`upper()`, `isdigit()` and the regex `\d`: they cover ASCII letters and digits only, not Unicode. Python's `isdigit()` also accepts other digits: '٣', which the `int()` that follows reads as 3, and '²', for which that `int()` raises. The model treats such a query as not a number: `get_recent_transactions` and `spending_report` fall back to their defaults (5 and 30), the finance client's amount scan does not take that word as the amount, and its listing parameters leave the limit unset.
- File encoding: `read_text()` and `write_text()` use the platform's default encoding. Files hold characters, so a file whose bytes do not decode (the read raises in the source) is not modelled. Line ends are modelled: every read turns "\r\n" and a lone "\r" into "\n" (`Text.ReadText`), and a write stores the text as given.
- Directory listing order: `iterdir()` yields files in an order the file system chooses. The model lists files in the order they were created (`Disk.names`). This order shows in the template's list and search replies, in FastMCP's list and search, and in the document handler's listing.
- Directories: a workspace is a flat map from file names to contents. In the source, a write to a name such as "dir/x.txt" whose directory does not exist raises, and the tool returns an error reply.
- McpTemplate.Workspace.Execute: a write under a name whose directory does not exist succeeds in the model, but in the source it is an error reply.
- SystemDemo.FileExecute: a write under a name whose directory does not exist succeeds in the model, but in the source it is an error reply.
- FinanceTool.Summary: the month is read as a plain date prefix. The source pastes it into the SQL text, so a month holding a quote makes the statement fail (the tool then returns success=false) or changes its meaning.
- FinanceServer.FinancialSummary: the month is read as a plain date prefix. The source pastes it into the SQL text, so a month holding a quote makes the statement fail or changes its meaning.
- FinanceTool.GoalListing: goals are listed newest first by creation order. `ORDER BY created_at DESC` compares one-second timestamps, so goals created in the same second come out in an order the query leaves open.
- Interactive `input()` loops and printing: the loops are kept as the decisions they make per line.
- The wording of canned replies: FreePractice's tech, creative, business and math answers, and the finance agent's help text. They are constants without structure, named by their kind.
- FreePractice.Invoke: returns which reply was chosen, and the general reply's excerpt, rather than the whole reply text. The text of the general reply is `GeneralText`.
- FinanceAgent.Agent.GetSummary: returns the summary reply it renders (`Rendered`), not the formatted text.
- FinanceAgent.Agent.GetRecentTransactions: returns the listing reply it renders (`Rendered`), not the formatted text.
- FinanceAgent.Agent.SpendingReport: returns the report reply it renders (`Rendered`), not the formatted text.
- LangGraph's `add_messages` reducer: messages are kept as their contents, and no node adds any.
- FinanceWeb.GetTransactions: its `limit` argument is never read by the source, so it is not a parameter.
- `calculator_tool`, the AutoGen and CrewAI scripts, the linear LangGraph example and the chain and setup scripts: they are framework wiring without owned logic.

## Findings

| source | as written | input that shows it | evidently intended | confidence | as-written member | corrected member |
|---|---|---|---|---|---|---|
| finance-mcp-app/finance_web_mcp.py:112-122 | the loop that reads income, expenses, net, savings rate and period runs over every line of the summary, including the top-expense lines | a month whose top expense category is named "Business Expenses": its line "- Business Expenses: $x" contains "Expenses:" and replaces the total expenses with x | the figures come from the five header lines only, and category lines fill only `expenses_by_category` | not executed | FinanceWeb.SummaryAsWrittenOverwrites | FinanceWeb.SummaryRoundTrip |
| mcp-core/mcp_client.py:124-125 | the LangChain wrapper returns `json.dumps(result, indent=2)` where `result` is what `ClientSession.call_tool` returns, an SDK `CallToolResult` object (the repository's other client reads its `.content`, mcp-core/example/client.py:252) | any call a connected server answers, such as the database tool with input "SELECT 1": `json.dumps` raises `TypeError` on the object, and the `except` turns it into "Error: Object of type CallToolResult is not JSON serializable" | the tool's result is returned as JSON text | not executed | McpClient.WrapperResultLost | McpClient.WrapperOutputIntended |
