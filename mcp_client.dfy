/**
 * The MCP client: a session that is set by a successful connection and
 * cleared by a disconnect, a guard that refuses tool calls without one, and
 * the conversion of the server's tools into LangChain wrappers that derive
 * keyword arguments from a single input string.
 */
module McpClient {
  import opened Text
  import opened Values
  import McpTemplate
  import McpServer
  import LangchainBridge

  /** A tool as the server lists it; `schema` is `{}` when it has none. */
  datatype ServerTool = ServerTool(name: string, description: string, schema: Json)

  /**
   * How far the stdio handshake gets: no session at all (the server does not
   * start), a session whose `initialize` raises, a session whose `list_tools`
   * raises after the server's reply, or a session with its reply and tools.
   */
  datatype Handshake =
    | NoSession
    | InitFailed(session: nat)
    | ListFailed(session: nat, info: string)
    | Accepted(session: nat, info: string, tools: seq<ServerTool>)

  /** A LangChain wrapper; its function calls the MCP tool of the same name. */
  datatype WrappedTool = WrappedTool(name: string, description: string)

  datatype ToolInfoEntry = ToolInfoEntry(name: string, description: string, schema: Json)

  datatype ClientInfo = ClientInfo(connected: bool, serverInfo: Option<string>, toolsCount: nat, toolNames: seq<string>)

  /**
   * What `call_tool` does: raise without a session, or relay the server's
   * answer. `Returned` is the SDK's `CallToolResult` object, given here by
   * the content it carries.
   */
  datatype CallReply = NotConnected | CallRaised | Returned(result: Json)

  class Client {
    var session: Option<nat>
    var connected: bool
    var tools: seq<ServerTool>
    var serverInfo: Option<string>

    constructor()
      ensures session == None && !connected && tools == [] && serverInfo == None
    {
      session := None;
      connected := false;
      tools := [];
      serverInfo := None;
    }

    /**
     * The session is stored as soon as it opens, and the server's reply as
     * soon as `initialize` returns; a later failure leaves them stored while
     * the client reports itself disconnected.
     */
    method ConnectToServer(handshake: Handshake) returns (ok: bool)
      modifies this
      ensures ok <==> handshake.Accepted?
      ensures connected == ok
      ensures session == (if handshake.NoSession? then old(session) else Some(handshake.session))
      ensures serverInfo == (if handshake.ListFailed? || handshake.Accepted? then Some(handshake.info) else old(serverInfo))
      ensures tools == (if handshake.Accepted? then handshake.tools else old(tools))
    {
      ok := false;
      if !handshake.NoSession? {
        session := Some(handshake.session);
        if !handshake.InitFailed? {
          serverInfo := Some(handshake.info);
          if handshake.Accepted? {
            tools := handshake.tools;
            ok := true;
          }
        }
      }
      connected := ok;
    }

    /** `call_tool`; `server` answers `None` when the remote call raises. */
    method CallTool(toolName: string, args: Json, server: (string, Json) -> Option<Json>) returns (r: CallReply)
      ensures r == Call(session.Some?, toolName, args, server)
      ensures session.None? ==> r == NotConnected
    {
      if session.None? {
        return NotConnected;
      }
      match server(toolName, args)
      case None => r := CallRaised;
      case Some(result) => r := Returned(result);
    }

    /** One wrapper per listed tool, with the same name and description, in order. */
    method ToLangchainTools() returns (ts: seq<WrappedTool>)
      ensures |ts| == |tools|
      ensures forall k :: 0 <= k < |ts| ==> ts[k] == WrappedTool(tools[k].name, tools[k].description)
    {
      if |tools| == 0 {
        return [];
      }
      ts := [];
      var i := 0;
      while i < |tools|
        invariant 0 <= i <= |tools|
        invariant |ts| == i
        invariant forall k :: 0 <= k < i ==> ts[k] == WrappedTool(tools[k].name, tools[k].description)
      {
        ts := ts + [WrappedTool(tools[i].name, tools[i].description)];
        i := i + 1;
      }
    }

    function GetToolInfo(): (r: seq<ToolInfoEntry>)
      reads this
      ensures |r| == |tools|
      ensures forall k :: 0 <= k < |r| ==> r[k] == ToolInfoEntry(tools[k].name, tools[k].description, tools[k].schema)
    {
      seq(|tools|, k requires 0 <= k < |tools| reads this => ToolInfoEntry(tools[k].name, tools[k].description, tools[k].schema))
    }

    function GetServerInfo(): (r: ClientInfo)
      reads this
      ensures r.toolsCount == |r.toolNames| == |tools|
      ensures forall k :: 0 <= k < |tools| ==> r.toolNames[k] == tools[k].name
      ensures r.connected == connected && r.serverInfo == serverInfo
    {
      ClientInfo(connected, serverInfo, |tools|, seq(|tools|, k requires 0 <= k < |tools| reads this => tools[k].name))
    }

    method Disconnect()
      modifies this
      ensures old(session).Some? ==> session == None && !connected
      ensures old(session).None? ==> session == old(session) && connected == old(connected)
      ensures tools == old(tools) && serverInfo == old(serverInfo)
    {
      if session.Some? {
        session := None;
        connected := false;
      }
    }
  }

  function Call(hasSession: bool, toolName: string, args: Json, server: (string, Json) -> Option<Json>): CallReply
  {
    if !hasSession then NotConnected
    else match server(toolName, args)
      case None => CallRaised
      case Some(result) => Returned(result)
  }

  /** After a disconnect, every tool call is refused. */
  method DisconnectThenCall(c: Client, toolName: string, args: Json, server: (string, Json) -> Option<Json>)
    returns (r: CallReply)
    modifies c
    ensures r == NotConnected
    ensures old(c.session).Some? ==> !c.connected
  {
    c.Disconnect();
    r := c.CallTool(toolName, args, server);
  }

  /**
   * A handshake that fails once the session is open leaves that session
   * stored, so a later call goes to it rather than answering "Not connected".
   */
  method FailedConnectThenCall(c: Client, s: nat, toolName: string, args: Json, server: (string, Json) -> Option<Json>)
    returns (ok: bool, r: CallReply)
    modifies c
    ensures !ok && !c.connected
    ensures r != NotConnected
    ensures r == Call(true, toolName, args, server)
  {
    ok := c.ConnectToServer(InitFailed(s));
    r := c.CallTool(toolName, args, server);
  }

  // ---------------------------------------------------------------------
  // Argument derivation in the LangChain wrappers
  // ---------------------------------------------------------------------

  /** `input.split(":", 1)` for an input holding a colon. */
  function SplitFirstColon(input: string): (r: (string, string))
    requires Contains(input, ":")
    ensures r.0 + ":" + r.1 == input
    ensures ':' !in r.0
  {
    var i := Find(input, ":").value;
    assert input[i..i + 1] == ":";
    forall j | 0 <= j < i
      ensures input[j] != ':'
    {
      assert !OccursAt(input, ":", j);
      assert input[j..j + 1] == [input[j]];
    }
    assert input == input[..i] + ":" + input[i + 1..];
    (input[..i], input[i + 1..])
  }

  /**
   * The arguments a wrapper sends: '{'-prefixed input is decoded as is; else
   * a database or query tool gets `query`, a document or access tool an
   * action (split at the first colon into action and filename), and any
   * other tool `input`.
   */
  function DeriveArgs(toolName: string, input: string, decode: string -> Option<Json>): Option<Json>
  {
    var lowerName := Lower(toolName);
    if StartsWith(input, "{") then decode(input)
    else if Contains(lowerName, "database") || Contains(lowerName, "query") then
      Some(JObj(map["query" := JStr(input)]))
    else if Contains(lowerName, "document") || Contains(lowerName, "access") then
      if Contains(input, ":") then
        var parts := SplitFirstColon(input);
        Some(JObj(map["action" := JStr(parts.0), "filename" := JStr(parts.1)]))
      else Some(JObj(map["action" := JStr(input)]))
    else Some(JObj(map["input" := JStr(input)]))
  }

  /**
   * What a wrapper returns as written: every failure ends in the error text,
   * and so does every result, because `json.dumps` raises `TypeError` on the
   * SDK's `CallToolResult`, which is no dict, list or scalar.
   */
  function WrapperOutput(hasSession: bool, toolName: string, input: string, decode: string -> Option<Json>,
                         server: (string, Json) -> Option<Json>): (r: LangchainBridge.WrapOutput)
    ensures r == LangchainBridge.ErrorText
  {
    match DeriveArgs(toolName, input, decode)
    case None => LangchainBridge.ErrorText
    case Some(args) =>
      match Call(hasSession, toolName, args, server)
      case Returned(_) => LangchainBridge.ErrorText
      case _ => LangchainBridge.ErrorText
  }

  /** The wrapper as evidently intended: the content of the session's result is relayed as JSON text. */
  function WrapperOutputIntended(hasSession: bool, toolName: string, input: string, decode: string -> Option<Json>,
                                 server: (string, Json) -> Option<Json>): (r: LangchainBridge.WrapOutput)
    ensures r.Dumped? <==>
      hasSession && DeriveArgs(toolName, input, decode).Some?
      && server(toolName, DeriveArgs(toolName, input, decode).value).Some?
    ensures r.Dumped? ==> r.result == server(toolName, DeriveArgs(toolName, input, decode).value).value
  {
    match DeriveArgs(toolName, input, decode)
    case None => LangchainBridge.ErrorText
    case Some(args) =>
      match Call(hasSession, toolName, args, server)
      case Returned(result) => LangchainBridge.Dumped(result)
      case _ => LangchainBridge.ErrorText
  }

  /**
   * Whenever a connected session answers, the wrapper as written loses the
   * answer and returns the error text, where the intended one relays it.
   */
  lemma WrapperResultLost(toolName: string, input: string, decode: string -> Option<Json>,
                          server: (string, Json) -> Option<Json>)
    requires DeriveArgs(toolName, input, decode).Some?
    requires server(toolName, DeriveArgs(toolName, input, decode).value).Some?
    ensures WrapperOutput(true, toolName, input, decode, server) == LangchainBridge.ErrorText
    ensures WrapperOutputIntended(true, toolName, input, decode, server)
         == LangchainBridge.Dumped(server(toolName, DeriveArgs(toolName, input, decode).value).value)
  {
  }

  /** Both wrappers agree on every call that fails: no session, bad input, or a raising server. */
  lemma WrappersAgreeOnFailure(hasSession: bool, toolName: string, input: string, decode: string -> Option<Json>,
                               server: (string, Json) -> Option<Json>)
    requires !WrapperOutputIntended(hasSession, toolName, input, decode, server).Dumped?
    ensures WrapperOutput(hasSession, toolName, input, decode, server)
         == WrapperOutputIntended(hasSession, toolName, input, decode, server)
  {
  }

  /** The database/query test comes first: a name matching both sets gets `query`. */
  lemma QueryBeatsDocument(toolName: string, input: string, decode: string -> Option<Json>)
    requires !StartsWith(input, "{")
    requires Contains(Lower(toolName), "database") || Contains(Lower(toolName), "query")
    ensures DeriveArgs(toolName, input, decode) == Some(JObj(map["query" := JStr(input)]))
  {
  }

  /**
   * A document tool splits at the first colon only: the action holds no colon
   * and the filename keeps every later one, so the two rejoin to the input.
   */
  lemma DocumentArgsSplit(toolName: string, input: string, decode: string -> Option<Json>)
    requires !StartsWith(input, "{")
    requires !Contains(Lower(toolName), "database") && !Contains(Lower(toolName), "query")
    requires Contains(Lower(toolName), "document") || Contains(Lower(toolName), "access")
    ensures Contains(input, ":") ==> exists a, f ::
      && DeriveArgs(toolName, input, decode) == Some(JObj(map["action" := JStr(a), "filename" := JStr(f)]))
      && a + ":" + f == input && ':' !in a
    ensures !Contains(input, ":") ==> DeriveArgs(toolName, input, decode) == Some(JObj(map["action" := JStr(input)]))
  {
    if Contains(input, ":") {
      var parts := SplitFirstColon(input);
      assert DeriveArgs(toolName, input, decode) == Some(JObj(map["action" := JStr(parts.0), "filename" := JStr(parts.1)]));
    }
  }

  /** Without a session every wrapper answers with the error text. */
  lemma WrapperWithoutSession(toolName: string, input: string, decode: string -> Option<Json>,
                              server: (string, Json) -> Option<Json>)
    ensures WrapperOutput(false, toolName, input, decode, server) == LangchainBridge.ErrorText
  {
  }

  // ---------------------------------------------------------------------
  // The stand-in document tool
  // ---------------------------------------------------------------------

  /**
   * `SimpleMCPDocumentTool.execute`: the same three answers as the server's
   * document handler, serialised directly.
   */
  function DocumentExecute(d: McpTemplate.Disk, action: string, filename: string): (r: McpServer.DocReply)
    ensures action == "list" ==> r == McpServer.DocFiles(d.names)
    ensures action == "read" && filename != "" && filename in d.files ==> r == McpServer.DocContent(filename, ReadText(d.files[filename]))
    ensures action == "read" && filename != "" && filename !in d.files ==> r == McpServer.DocError("File " + filename + " not found")
    ensures action != "list" && (action != "read" || filename == "") ==> r == McpServer.DocError(McpServer.InvalidAction)
  {
    McpServer.DocumentAccess(d, action, filename)
  }
}
