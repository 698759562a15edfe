/**
 * The MCP system demo: tools that describe themselves with a schema, a
 * file tool over the workspace, and an agent that keys its tools by name,
 * runs the tool an LLM reply names, and (in the scripted variant) routes a
 * request by keywords to a database query or a file operation.
 */
module SystemDemo {
  import opened Text
  import opened Values
  import McpTemplate

  // ---------------------------------------------------------------------
  // Tools and schemas
  // ---------------------------------------------------------------------

  /** The base class and its two concrete tools. */
  datatype DemoToolKind = BaseTool | DatabaseQuery | FileOperations

  datatype DemoTool = DemoTool(kind: DemoToolKind, name: string, description: string)

  /** What `get_parameters` returns: `{}` for the base class. */
  datatype Parameters =
    | NoParameters
    | ParamSchema(properties: seq<string>, operations: seq<string>, required: seq<string>)

  function GetParameters(kind: DemoToolKind): Parameters
  {
    match kind
    case BaseTool => NoParameters
    case DatabaseQuery => ParamSchema(["query"], [], ["query"])
    case FileOperations => ParamSchema(["operation", "filename", "content"], ["read", "write", "list"], ["operation"])
  }

  datatype ToolSchema = ToolSchema(name: string, description: string, parameters: Parameters)

  /** `to_schema`: the tool's name and description with its parameters. */
  function ToSchema(t: DemoTool): (s: ToolSchema)
    ensures s.name == t.name && s.description == t.description
    ensures s.parameters == GetParameters(t.kind)
    ensures t.kind == BaseTool ==> s.parameters == NoParameters
  {
    ToolSchema(t.name, t.description, GetParameters(t.kind))
  }

  /** The value a tool call produces, or the exception it raises. */
  datatype Reply =
    | FilesReply(files: seq<string>)        // {"files": [...]}
    | ContentReply(content: string)         // {"content": ...}
    | SuccessReply(message: string)         // {"success": ...}
    | ErrorReply(error: string)             // {"error": ...}
    | Rows(rows: seq<string>)               // the database tool's row list, each row as text
    | Raised(exception: string)             // an exception escaping the tool

  const InvalidFileRequest := "Invalid operation or missing parameters"

  // ---------------------------------------------------------------------
  // The file tool
  // ---------------------------------------------------------------------

  datatype FileOutcome = FileOutcome(reply: Reply, disk: McpTemplate.Disk)

  /** One `FileSystemTool.execute` call; "" stands for a missing argument. */
  function FileRun(d: McpTemplate.Disk, operation: string, filename: string, content: string): FileOutcome
  {
    if operation == "list" then FileOutcome(FilesReply(d.names), d)
    else if operation == "read" && filename != "" then
      if filename in d.files then FileOutcome(ContentReply(ReadText(d.files[filename])), d)
      else FileOutcome(ErrorReply("File " + filename + " not found"), d)
    else if operation == "write" && filename != "" && content != "" then
      var names := if filename in d.files then d.names else d.names + [filename];
      FileOutcome(SuccessReply("File " + filename + " written successfully"),
                  McpTemplate.Disk(d.files[filename := content], names))
    else FileOutcome(ErrorReply(InvalidFileRequest), d)
  }

  method FileExecute(ws: McpTemplate.Workspace, operation: string, filename: string, content: string)
    returns (r: Reply)
    requires ws.Valid()
    modifies ws
    ensures ws.Valid()
    ensures FileOutcome(r, McpTemplate.Disk(ws.files, ws.names))
         == FileRun(McpTemplate.Disk(old(ws.files), old(ws.names)), operation, filename, content)
  {
    if operation == "list" {
      r := FilesReply(ws.names);
    } else if operation == "read" && filename != "" {
      if filename in ws.files {
        r := ContentReply(ReadText(ws.files[filename]));
      } else {
        r := ErrorReply("File " + filename + " not found");
      }
    } else if operation == "write" && filename != "" && content != "" {
      var req := McpTemplate.Request("write", filename, content, "");
      var _ := ws.Execute(req);
      r := SuccessReply("File " + filename + " written successfully");
    } else {
      r := ErrorReply(InvalidFileRequest);
    }
  }

  /**
   * The text of the `TypeError` that `execute` catches and returns as
   * {"error": str(e)} when a path or content is not text; its wording is not
   * modelled.
   */
  const CaughtTypeError := "TypeError"

  /**
   * `execute` on the values as decoded, since Python does not enforce the
   * type hints: `JNull` stands for a missing argument. Each test compares
   * or takes the truth of the raw value; a truthy non-text name fails at
   * `base_path / filename`, and non-text content at `write_text`, both inside
   * the `try`, so they become an error reply with nothing written.
   */
  function FileCall(d: McpTemplate.Disk, operation: Json, filename: Json, content: Json): (o: FileOutcome)
    ensures !o.reply.Raised?
    ensures o.disk != d ==> operation == JStr("write") && filename.JStr? && content.JStr?
  {
    if operation == JStr("list") then FileOutcome(FilesReply(d.names), d)
    else if operation == JStr("read") && Truthy(filename) then
      if filename.JStr? then FileRun(d, "read", filename.s, "")
      else FileOutcome(ErrorReply(CaughtTypeError), d)
    else if operation == JStr("write") && Truthy(filename) && Truthy(content) then
      if filename.JStr? && content.JStr? then FileRun(d, "write", filename.s, content.s)
      else FileOutcome(ErrorReply(CaughtTypeError), d)
    else FileOutcome(ErrorReply(InvalidFileRequest), d)
  }

  /** `execute` with the decoded values; text arguments behave as `FileExecute`. */
  method FileExecuteValues(ws: McpTemplate.Workspace, operation: Json, filename: Json, content: Json)
    returns (r: Reply)
    requires ws.Valid()
    modifies ws
    ensures ws.Valid()
    ensures FileOutcome(r, McpTemplate.Disk(ws.files, ws.names))
         == FileCall(McpTemplate.Disk(old(ws.files), old(ws.names)), operation, filename, content)
  {
    if operation == JStr("list") {
      r := FileExecute(ws, "list", "", "");
    } else if operation == JStr("read") && Truthy(filename) {
      if filename.JStr? {
        r := FileExecute(ws, "read", filename.s, "");
      } else {
        r := ErrorReply(CaughtTypeError);
      }
    } else if operation == JStr("write") && Truthy(filename) && Truthy(content) {
      if filename.JStr? && content.JStr? {
        r := FileExecute(ws, "write", filename.s, content.s);
      } else {
        r := ErrorReply(CaughtTypeError);
      }
    } else {
      r := ErrorReply(InvalidFileRequest);
    }
  }

  /**
   * On text values, `FileCall` is `FileRun`, with `JNull` and "" both a
   * missing argument; "list" ignores the other two whatever they are, and a
   * falsy name or content is the invalid-operation reply.
   */
  lemma FileCallOnText(d: McpTemplate.Disk, operation: string, filename: Json, content: Json)
    requires filename.JStr? || filename.JNull?
    requires content.JStr? || content.JNull?
    ensures var f := if filename.JStr? then filename.s else "";
      var c := if content.JStr? then content.s else "";
      FileCall(d, JStr(operation), filename, content) == FileRun(d, operation, f, c)
  {
  }

  /**
   * A truthy non-text name makes a read or a write an error reply with
   * nothing written, and so does truthy non-text content for a write; a
   * list ignores both.
   */
  lemma FileCallNonText(d: McpTemplate.Disk, filename: Json, content: Json)
    ensures Truthy(filename) && !filename.JStr? ==>
      && FileCall(d, JStr("read"), filename, content) == FileOutcome(ErrorReply(CaughtTypeError), d)
      && (Truthy(content) ==> FileCall(d, JStr("write"), filename, content) == FileOutcome(ErrorReply(CaughtTypeError), d))
    ensures Truthy(filename) && Truthy(content) && !content.JStr? ==>
      FileCall(d, JStr("write"), filename, content) == FileOutcome(ErrorReply(CaughtTypeError), d)
    ensures !Truthy(filename) ==>
      && FileCall(d, JStr("read"), filename, content) == FileOutcome(ErrorReply(InvalidFileRequest), d)
      && FileCall(d, JStr("write"), filename, content) == FileOutcome(ErrorReply(InvalidFileRequest), d)
    ensures FileCall(d, JStr("list"), filename, content) == FileOutcome(FilesReply(d.names), d)
  {
  }

  /** Write then read of the same name returns the written content, line ends read as '\n'. */
  lemma FileWriteThenRead(d: McpTemplate.Disk, filename: string, content: string)
    requires McpTemplate.WellFormed(d) && filename != "" && content != ""
    ensures var w := FileRun(d, "write", filename, content);
      && McpTemplate.WellFormed(w.disk)
      && FileRun(w.disk, "read", filename, "").reply == ContentReply(ReadText(content))
      && ('\r' !in content ==> FileRun(w.disk, "read", filename, "").reply == ContentReply(content))
  {
    McpTemplate.WriteThenRead(d, filename, content);
    if '\r' !in content {
      ReadTextPlain(content);
    }
  }

  /** Reading an absent name reports it; the workspace is unchanged. */
  lemma FileReadAbsent(d: McpTemplate.Disk, filename: string)
    requires filename != "" && filename !in d.files
    ensures FileRun(d, "read", filename, "") == FileOutcome(ErrorReply("File " + filename + " not found"), d)
  {
  }

  /** Missing filename or content, or an unknown operation, is rejected with no write. */
  lemma FileRejected(d: McpTemplate.Disk, operation: string, filename: string, content: string)
    requires || (operation == "write" && (filename == "" || content == ""))
             || (operation == "read" && filename == "")
             || operation !in ["list", "read", "write"]
    ensures FileRun(d, operation, filename, content) == FileOutcome(ErrorReply(InvalidFileRequest), d)
  {
  }

  // ---------------------------------------------------------------------
  // The agent's tool map
  // ---------------------------------------------------------------------

  /** `{tool.name: tool for tool in tools}`. */
  function ToolMap(ts: seq<DemoTool>): map<string, DemoTool>
  {
    if |ts| == 0 then map[] else ToolMap(ts[..|ts| - 1])[ts[|ts| - 1].name := ts[|ts| - 1]]
  }

  /** The dict's key order: each name where it first occurs. */
  function NameOrder(ts: seq<DemoTool>): seq<string>
  {
    if |ts| == 0 then []
    else
      var prev := NameOrder(ts[..|ts| - 1]);
      if ts[|ts| - 1].name in prev then prev else prev + [ts[|ts| - 1].name]
  }

  /** The map's keys are exactly the tools' names. */
  lemma {:induction false} ToolMapKeys(ts: seq<DemoTool>)
    ensures forall n :: n in ToolMap(ts) <==> exists i :: 0 <= i < |ts| && ts[i].name == n
  {
    if |ts| > 0 {
      var init := ts[..|ts| - 1];
      ToolMapKeys(init);
      forall n
        ensures n in ToolMap(ts) <==> exists i :: 0 <= i < |ts| && ts[i].name == n
      {
        if n == ts[|ts| - 1].name {
          assert n in ToolMap(ts);
        } else {
          if n in ToolMap(init) {
            var i :| 0 <= i < |init| && init[i].name == n;
            assert ts[i].name == n;
          }
          if exists i :: 0 <= i < |ts| && ts[i].name == n {
            var i :| 0 <= i < |ts| && ts[i].name == n;
            assert init[i].name == n;
          }
        }
      }
    }
  }

  /**
   * The map has exactly the tools' names as keys, and each name maps to the
   * last tool carrying it.
   */
  lemma {:induction false} ToolMapLastWins(ts: seq<DemoTool>)
    ensures forall n :: n in ToolMap(ts) <==> exists i :: 0 <= i < |ts| && ts[i].name == n
    ensures forall i :: 0 <= i < |ts| && (forall j :: i < j < |ts| ==> ts[j].name != ts[i].name) ==>
      ts[i].name in ToolMap(ts) && ToolMap(ts)[ts[i].name] == ts[i]
  {
    ToolMapKeys(ts);
    if |ts| > 0 {
      var init := ts[..|ts| - 1];
      ToolMapLastWins(init);
      forall i | 0 <= i < |ts| && (forall j :: i < j < |ts| ==> ts[j].name != ts[i].name)
        ensures ts[i].name in ToolMap(ts) && ToolMap(ts)[ts[i].name] == ts[i]
      {
        if i < |ts| - 1 {
          assert ts[i] == init[i];
          assert forall j :: i < j < |init| ==> init[j] == ts[j];
        }
      }
    }
  }

  /** The key order lists every key of the map once. */
  lemma {:induction false} NameOrderKeys(ts: seq<DemoTool>)
    ensures Distinct(NameOrder(ts)) && Elements(NameOrder(ts)) == ToolMap(ts).Keys
    ensures forall n :: n in ToolMap(ts) ==> ToolMap(ts)[n].name == n
  {
    if |ts| > 0 {
      var init := ts[..|ts| - 1];
      NameOrderKeys(init);
      var prev := NameOrder(init);
      if ts[|ts| - 1].name !in prev {
        DistinctAppend(prev, ts[|ts| - 1].name);
      }
    }
  }

  class Agent {
    var tools: map<string, DemoTool>
    var order: seq<string>

    ghost predicate Valid()
      reads this
    {
      && Distinct(order) && Elements(order) == tools.Keys
      && forall n :: n in tools ==> tools[n].name == n
    }

    constructor(ts: seq<DemoTool>)
      ensures Valid()
      ensures tools == ToolMap(ts) && order == NameOrder(ts)
    {
      var m: map<string, DemoTool> := map[];
      var o: seq<string> := [];
      var i := 0;
      while i < |ts|
        invariant 0 <= i <= |ts|
        invariant m == ToolMap(ts[..i]) && o == NameOrder(ts[..i])
      {
        assert ts[..i + 1][..i] == ts[..i];
        if ts[i].name !in o {
          o := o + [ts[i].name];
        }
        m := m[ts[i].name := ts[i]];
        i := i + 1;
      }
      assert ts[..|ts|] == ts;
      tools := m;
      order := o;
      NameOrderKeys(ts);
    }

    /** One schema per distinct tool name, in first-registration order. */
    function AvailableTools(): (r: seq<ToolSchema>)
      reads this
      requires Valid()
      ensures |r| == |order| == |tools|
      ensures forall k :: 0 <= k < |r| ==> order[k] in tools && r[k] == ToSchema(tools[order[k]])
      ensures forall i, j :: 0 <= i < j < |r| ==> r[i].name != r[j].name
      ensures forall n :: n in tools <==> exists k :: 0 <= k < |r| && r[k].name == n
    {
      DistinctLength(order);
      assert forall k :: 0 <= k < |order| ==> order[k] in Elements(order);
      var r := SchemasOf(order, tools);
      assert forall n :: n in tools ==> n in order;
      assert forall n :: n in tools ==> exists k :: 0 <= k < |order| && order[k] == n && r[k].name == n;
      r
    }

    /**
     * Runs the named tool. Arguments holding a `self` or `tool_name` key
     * raise while they are bound, before the name is looked up; an unknown
     * name gets the not-found error and touches nothing; the database tool
     * answers with `dbRows`.
     */
    method ExecuteTool(toolName: string, args: map<string, Json>, ws: McpTemplate.Workspace, dbRows: seq<string>)
      returns (r: Reply)
      requires Valid() && ws.Valid()
      modifies ws
      ensures ws.Valid()
      ensures !McpTemplate.BindsCall(args) ==> r == Raised("TypeError") && unchanged(ws)
      ensures McpTemplate.BindsCall(args) && toolName !in tools ==>
        r == ErrorReply("Tool " + toolName + " not found") && unchanged(ws)
      ensures McpTemplate.BindsCall(args) && toolName in tools ==> r == Dispatch(tools[toolName].kind, args, McpTemplate.Disk(old(ws.files), old(ws.names)), dbRows).reply
      ensures McpTemplate.BindsCall(args) && toolName in tools ==> McpTemplate.Disk(ws.files, ws.names) == Dispatch(tools[toolName].kind, args, McpTemplate.Disk(old(ws.files), old(ws.names)), dbRows).disk
    {
      if !McpTemplate.BindsCall(args) {
        r := Raised("TypeError");
        return;
      }
      if toolName !in tools {
        r := ErrorReply("Tool " + toolName + " not found");
        return;
      }
      match tools[toolName].kind
      case BaseTool =>
        r := Raised("NotImplementedError");
      case DatabaseQuery =>
        r := if BindsQuery(args) then Rows(dbRows) else Raised("TypeError");
      case FileOperations =>
        match BindFileArgs(args)
        case None =>
          r := Raised("TypeError");
        case Some(fa) =>
          r := FileExecuteValues(ws, fa.0, fa.1, fa.2);
    }
  }

  function SchemasOf(names: seq<string>, tools: map<string, DemoTool>): (r: seq<ToolSchema>)
    requires forall k :: 0 <= k < |names| ==> names[k] in tools
    ensures |r| == |names|
    ensures forall k :: 0 <= k < |names| ==> r[k] == ToSchema(tools[names[k]])
  {
    seq(|names|, k requires 0 <= k < |names| => ToSchema(tools[names[k]]))
  }

  /** Keyword arguments accepted by the database tool: exactly `query`. */
  predicate BindsQuery(args: map<string, Json>)
  {
    args.Keys == {"query"}
  }

  /** A keyword argument as decoded; `JNull` for one not given, as the `None` default. */
  function ArgValue(args: map<string, Json>, key: string): Json
  {
    if key in args then args[key] else JNull
  }

  /**
   * Binds `**kwargs` to `execute(operation, filename=None, content=None)`:
   * `operation` is required and no other key is accepted, otherwise the call
   * raises `TypeError` before `execute` runs. The values are passed as they
   * were decoded.
   */
  function BindFileArgs(args: map<string, Json>): (r: Option<(Json, Json, Json)>)
    ensures r.Some? <==> "operation" in args && args.Keys <= {"operation", "filename", "content"}
    ensures r.Some? ==> r.value == (args["operation"], ArgValue(args, "filename"), ArgValue(args, "content"))
  {
    if "operation" !in args || !(args.Keys <= {"operation", "filename", "content"}) then None
    else Some((args["operation"], ArgValue(args, "filename"), ArgValue(args, "content")))
  }

  /** What calling a registered tool of the given kind produces. */
  function Dispatch(kind: DemoToolKind, args: map<string, Json>, d: McpTemplate.Disk, dbRows: seq<string>): FileOutcome
  {
    match kind
    case BaseTool => FileOutcome(Raised("NotImplementedError"), d)
    case DatabaseQuery => FileOutcome(if BindsQuery(args) then Rows(dbRows) else Raised("TypeError"), d)
    case FileOperations =>
      match BindFileArgs(args)
      case None => FileOutcome(Raised("TypeError"), d)
      case Some(fa) => FileCall(d, fa.0, fa.1, fa.2)
  }

  /** The base tool's `execute` always raises, and its parameters are `{}`. */
  lemma BaseToolRaises(args: map<string, Json>, d: McpTemplate.Disk, dbRows: seq<string>)
    ensures Dispatch(BaseTool, args, d, dbRows) == FileOutcome(Raised("NotImplementedError"), d)
    ensures GetParameters(BaseTool) == NoParameters
  {
  }

  // ---------------------------------------------------------------------
  // Interpreting the LLM reply
  // ---------------------------------------------------------------------

  /** What `_call_llm` returns: the stripped answer, or its failure text. */
  datatype LlmAnswer = Answered(text: string) | CallFailed(message: string)

  function FailureJson(message: string): string
  {
    "{\"error\": \"LLM call failed: " + message + "\"}"
  }

  function ReplyText(a: LlmAnswer): string
  {
    match a
    case Answered(text) => Strip(text)
    case CallFailed(message) => FailureJson(message)
  }

  /** How `process_request` proceeds once the reply is decoded. */
  datatype DemoStep =
    | ParseFailed                                     // "Failed to parse LLM JSON response"
    | NoToolName                                      // "LLM did not return a tool_name"
    | StepError                                       // "Error executing tool"
    | UnknownNameReply(reply: Reply)                  // a non-text name: no tool has it
    | RunTool(toolName: string, args: map<string, Json>)

  function InterpretReply(reply: string, decode: string -> Option<Json>): DemoStep
  {
    match decode(McpTemplate.StripFences(reply))
    case None => ParseFailed
    case Some(JObj(fields)) => InterpretObject(fields)
    case Some(_) => StepError
  }

  /**
   * The decoded object's `tool_name` and `tool_args`: a falsy name runs
   * nothing, and a list or dict name, arguments that are no dict, or
   * arguments holding a `self` or `tool_name` key make the call fail.
   */
  function InterpretObject(fields: map<string, Json>): (st: DemoStep)
    ensures st.RunTool? ==> McpTemplate.BindsCall(st.args)
  {
    var toolName := Get(fields, "tool_name", JNull);
    var toolArgs := Get(fields, "tool_args", JObj(map[]));
    if !Truthy(toolName) then NoToolName
    else if !toolArgs.JObj? || toolName.JArr? || toolName.JObj? || !McpTemplate.BindsCall(toolArgs.fields) then StepError
    else if toolName.JStr? then RunTool(toolName.s, toolArgs.fields)
    else UnknownNameReply(ErrorReply("Tool <non-text name> not found"))
  }

  /** The text `process_request` returns, by outcome. */
  datatype Final =
    | ReportParseFailure
    | ReportNoToolName
    | ReportException
    | ReportToolError(reply: Reply)
    | ReportSuccess(toolName: string, reply: Reply)

  /** A dict with an "error" key is a tool error; anything else is a success. */
  function Classify(toolName: string, r: Reply): (f: Final)
    ensures r.ErrorReply? ==> f == ReportToolError(r)
    ensures r.Raised? ==> f == ReportException
    ensures !r.ErrorReply? && !r.Raised? ==> f == ReportSuccess(toolName, r)
  {
    match r
    case ErrorReply(_) => ReportToolError(r)
    case Raised(_) => ReportException
    case _ => ReportSuccess(toolName, r)
  }

  /** The database tool's own error rows are a list, not a dict, so they count as success. */
  lemma ErrorRowsAreSuccess(toolName: string, rows: seq<string>)
    ensures Classify(toolName, Rows(rows)).ReportSuccess?
  {
  }

  method ProcessRequest(agent: Agent, answer: LlmAnswer, decode: string -> Option<Json>,
                        ws: McpTemplate.Workspace, dbRows: seq<string>)
    returns (f: Final)
    requires agent.Valid() && ws.Valid()
    modifies ws
    ensures ws.Valid()
    ensures !InterpretReply(ReplyText(answer), decode).RunTool? ==> unchanged(ws)
    ensures InterpretReply(ReplyText(answer), decode) == ParseFailed ==> f == ReportParseFailure
    ensures InterpretReply(ReplyText(answer), decode) == NoToolName ==> f == ReportNoToolName
    ensures InterpretReply(ReplyText(answer), decode) == StepError ==> f == ReportException
    ensures InterpretReply(ReplyText(answer), decode).UnknownNameReply? ==> f.ReportToolError?
    ensures var st := InterpretReply(ReplyText(answer), decode);
      st.RunTool? && st.toolName !in agent.tools ==>
        f == ReportToolError(ErrorReply("Tool " + st.toolName + " not found"))
    ensures var st := InterpretReply(ReplyText(answer), decode);
      st.RunTool? && st.toolName in agent.tools ==>
        var o := Dispatch(agent.tools[st.toolName].kind, st.args, McpTemplate.Disk(old(ws.files), old(ws.names)), dbRows);
        f == Classify(st.toolName, o.reply) && McpTemplate.Disk(ws.files, ws.names) == o.disk
  {
    match InterpretReply(ReplyText(answer), decode)
    case ParseFailed => f := ReportParseFailure;
    case NoToolName => f := ReportNoToolName;
    case StepError => f := ReportException;
    case UnknownNameReply(r) => f := Classify("", r);
    case RunTool(name, args) =>
      var r := agent.ExecuteTool(name, args, ws, dbRows);
      f := Classify(name, r);
  }

  /**
   * For a decoded object, a tool runs exactly when `tool_name` is a non-empty
   * string and `tool_args` is absent or an object without a `self` or
   * `tool_name` key; it gets those arguments.
   */
  lemma RunsOnlyWhenNamed(reply: string, decode: string -> Option<Json>, fields: map<string, Json>)
    requires decode(McpTemplate.StripFences(reply)) == Some(JObj(fields))
    ensures InterpretReply(reply, decode).RunTool? <==>
      && "tool_name" in fields && fields["tool_name"].JStr? && fields["tool_name"].s != ""
      && ("tool_args" !in fields || (fields["tool_args"].JObj? && McpTemplate.BindsCall(fields["tool_args"].fields)))
    ensures InterpretReply(reply, decode).RunTool? ==>
      && InterpretReply(reply, decode).toolName == fields["tool_name"].s
      && InterpretReply(reply, decode).args == Get(fields, "tool_args", JObj(map[])).fields
  {
    ObjectRunsOnlyWhenNamed(fields);
  }

  lemma ObjectRunsOnlyWhenNamed(fields: map<string, Json>)
    ensures InterpretObject(fields).RunTool? <==>
      && "tool_name" in fields && fields["tool_name"].JStr? && fields["tool_name"].s != ""
      && ("tool_args" !in fields || (fields["tool_args"].JObj? && McpTemplate.BindsCall(fields["tool_args"].fields)))
    ensures InterpretObject(fields).RunTool? ==>
      && InterpretObject(fields).toolName == fields["tool_name"].s
      && InterpretObject(fields).args == Get(fields, "tool_args", JObj(map[])).fields
  {
  }

  /**
   * Exception text that can sit between the quotes of a JSON string as it
   * stands: no quote, no backslash, no control character.
   */
  predicate PlainJsonText(s: string)
  {
    forall i :: 0 <= i < |s| ==> s[i] != '"' && s[i] != '\\' && s[i] >= ' '
  }

  /**
   * When the LLM call fails with an exception text that holds no backquote
   * and is plain JSON text, the failure text decodes to an object with only
   * an "error" key, so no tool is run. (Any other text either fails to
   * decode or may decode to other keys.)
   */
  lemma FailedCallRunsNothing(message: string, decode: string -> Option<Json>)
    requires '`' !in message && PlainJsonText(message)
    requires decode(FailureJson(message)) == Some(JObj(map["error" := JStr("LLM call failed: " + message)]))
    ensures InterpretReply(ReplyText(CallFailed(message)), decode) == NoToolName
  {
    var text := FailureJson(message);
    assert text == "{\"error\": \"LLM call failed: " + message + "\"}";
    assert '`' !in text;
    assert Stripped(text) by {
      assert text[0] == '{' && text[|text| - 1] == '}';
    }
    McpTemplate.NoFenceWholeReply(text);
    StripStripped(text);
    assert "tool_name" !in map["error" := JStr("LLM call failed: " + message)];
    NamelessObject(ReplyText(CallFailed(message)), decode, map["error" := JStr("LLM call failed: " + message)]);
  }

  /**
   * Arguments holding a `self` or `tool_name` key raise while `execute_tool`
   * binds them, whatever the name: "Error executing tool".
   */
  lemma ClashingArgsFail(fields: map<string, Json>)
    requires "tool_name" in fields && Truthy(fields["tool_name"])
    requires "tool_args" in fields && fields["tool_args"].JObj? && !McpTemplate.BindsCall(fields["tool_args"].fields)
    ensures InterpretObject(fields) == StepError
  {
  }

  /** A decoded object without a "tool_name" key runs no tool. */
  lemma NamelessObject(reply: string, decode: string -> Option<Json>, fields: map<string, Json>)
    requires decode(McpTemplate.StripFences(reply)) == Some(JObj(fields)) && "tool_name" !in fields
    ensures InterpretReply(reply, decode) == NoToolName
  {
  }

  // ---------------------------------------------------------------------
  // The scripted agent's keyword routing
  // ---------------------------------------------------------------------

  const DatabaseWords: seq<string> := ["database", "query", "employee", "project", "sql"]
  const FileWords: seq<string> := ["file", "read", "notes", "budget", "document"]

  datatype Route = DatabaseRoute | FileRoute | GeneralRoute

  function RouteRequest(request: string): Route
  {
    var lower := Lower(request);
    if ContainsAny(lower, DatabaseWords) then DatabaseRoute
    else if ContainsAny(lower, FileWords) then FileRoute
    else GeneralRoute
  }

  /** Database keywords win over file keywords; the general reply only when neither occurs. */
  lemma RoutePrecedence(request: string)
    ensures RouteRequest(request) == DatabaseRoute <==> ContainsAny(Lower(request), DatabaseWords)
    ensures RouteRequest(request) == FileRoute <==>
      !ContainsAny(Lower(request), DatabaseWords) && ContainsAny(Lower(request), FileWords)
    ensures RouteRequest(request) == GeneralRoute <==>
      !ContainsAny(Lower(request), DatabaseWords) && !ContainsAny(Lower(request), FileWords)
  {
  }

  /** The SQL the database handler runs: employees > projects > engineering > salary > first five. */
  function DatabaseQueryFor(request: string): string
  {
    var lower := Lower(request);
    if Contains(lower, "employees") then "SELECT * FROM employees"
    else if Contains(lower, "projects") then "SELECT * FROM projects"
    else if Contains(lower, "engineering") then "SELECT * FROM employees WHERE department = 'Engineering'"
    else if Contains(lower, "salary") then "SELECT name, salary FROM employees ORDER BY salary DESC"
    else "SELECT * FROM employees LIMIT 5"
  }

  /** The handler reports rows only when the reply is a non-empty row list with no "error" in any row. */
  predicate DatabaseSucceeded(r: Reply)
  {
    match r
    case Rows(rows) => |rows| > 0 && forall k :: 0 <= k < |rows| ==> !Contains(rows[k], "error")
    case Raised(_) => false
    case _ => false
  }

  /** Database error iff the rows are empty or some row mentions "error"; a dict reply is an error too. */
  lemma DatabaseErrorCases(r: Reply)
    ensures r.Rows? ==> (!DatabaseSucceeded(r) <==>
      |r.rows| == 0 || exists k :: 0 <= k < |r.rows| && Contains(r.rows[k], "error"))
    ensures r.ErrorReply? ==> !DatabaseSucceeded(r)
  {
  }

  /** The file handler's call: list > notes > budget > list. */
  function FileCallFor(request: string): (string, string)
  {
    var lower := Lower(request);
    if Contains(lower, "list") then ("list", "")
    else if Contains(lower, "notes") then ("read", "meeting_notes.txt")
    else if Contains(lower, "budget") then ("read", "budget_2025.json")
    else ("list", "")
  }

  /** A word with no upper-case ASCII letter still occurs, at the same place, once the text is lowered. */
  lemma LowerKeepsWord(s: string, p: string, i: int)
    requires OccursAt(s, p, i)
    requires forall j :: 0 <= j < |p| ==> !('A' <= p[j] <= 'Z')
    ensures OccursAt(Lower(s), p, i)
  {
    forall j | 0 <= j < |p|
      ensures Lower(s)[i..i + |p|][j] == p[j]
    {
      assert s[i..i + |p|][j] == p[j];
    }
  }

  /**
   * Any request in which "project" occurs goes to the database handler,
   * whatever file words ("read", "file", ...) it also holds.
   */
  lemma ProjectFileGoesToDatabase(request: string)
    ensures Contains(request, "project") ==> RouteRequest(request) == DatabaseRoute
  {
    if Contains(request, "project") {
      var i := Find(request, "project").value;
      LowerKeepsWord(request, "project", i);
      OccursContains(Lower(request), "project", i);
      assert Contains(Lower(request), DatabaseWords[3]);
    }
  }

  /**
   * Any request in which "employees" occurs selects every employee, even
   * when it also names "engineering", "salary" or "projects".
   */
  lemma EmployeesBeatEngineering(request: string)
    ensures Contains(request, "employees") ==> DatabaseQueryFor(request) == "SELECT * FROM employees"
  {
    if Contains(request, "employees") {
      var i := Find(request, "employees").value;
      LowerKeepsWord(request, "employees", i);
      OccursContains(Lower(request), "employees", i);
    }
  }

  /** The handler selects by precedence: an "employees" request never gets a filtered query. */
  lemma DatabaseQueryPrecedence(request: string)
    ensures Contains(Lower(request), "employees") ==> DatabaseQueryFor(request) == "SELECT * FROM employees"
    ensures !Contains(Lower(request), "employees") && Contains(Lower(request), "projects") ==>
      DatabaseQueryFor(request) == "SELECT * FROM projects"
    ensures !Contains(Lower(request), "employees") && !Contains(Lower(request), "projects") &&
            !Contains(Lower(request), "engineering") && !Contains(Lower(request), "salary") ==>
      DatabaseQueryFor(request) == "SELECT * FROM employees LIMIT 5"
  {
  }

  /** Every request the file handler sees ends in a list or a read of one of the two demo files. */
  lemma FileCallShapes(request: string)
    ensures FileCallFor(request) in [("list", ""), ("read", "meeting_notes.txt"), ("read", "budget_2025.json")]
    ensures Contains(Lower(request), "list") ==> FileCallFor(request) == ("list", "")
  {
  }
}
