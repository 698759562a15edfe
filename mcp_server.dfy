/**
 * The SDK-based MCP server: two advertised tools, a call dispatcher that
 * routes by tool name, and the document and database handlers, each of which
 * answers with exactly one text element.
 */
module McpServer {
  import opened Text
  import opened Values
  import McpTemplate

  const QueryTool := "query_database"
  const DocumentTool := "access_document"
  const ServerName := "company-data-mcp-server"
  const InvalidAction := "Invalid action. Use 'list' or 'read' with filename"

  /** A tool as the list-tools handler advertises it. */
  datatype Advertised = Advertised(name: string, required: seq<string>, actions: seq<string>)

  function ListTools(): (r: seq<Advertised>)
    ensures |r| == 2 && r[0].name == QueryTool && r[1].name == DocumentTool
    ensures r[1].actions == ["list", "read"]
  {
    [Advertised(QueryTool, ["query"], []), Advertised(DocumentTool, ["action"], ["list", "read"])]
  }

  /** The JSON object one handler serialises. */
  datatype DocReply =
    | DocFiles(files: seq<string>)
    | DocContent(filename: string, content: string)
    | DocError(error: string)

  /** The payload of one text element. */
  datatype Payload = DocPayload(reply: DocReply) | QueryRows(rows: seq<string>) | QueryFailed

  datatype TextContent = TextContent(payload: Payload)

  /** A call either answers with text elements or raises for an unknown name. */
  datatype CallOutcome = Contents(items: seq<TextContent>) | UnknownTool(name: string)

  /** `_handle_document_access`; "" stands for a missing action or filename. */
  function DocumentAccess(d: McpTemplate.Disk, action: string, filename: string): DocReply
  {
    if action == "list" then DocFiles(d.names)
    else if action == "read" && filename != "" then
      if filename in d.files then DocContent(filename, ReadText(d.files[filename]))
      else DocError("File " + filename + " not found")
    else DocError(InvalidAction)
  }

  function DocumentHandler(d: McpTemplate.Disk, action: string, filename: string): seq<TextContent>
  {
    [TextContent(DocPayload(DocumentAccess(d, action, filename)))]
  }

  /** `_handle_database_query`; `db` answers `None` when the SQL fails. */
  function DatabaseHandler(query: string, db: string -> Option<seq<string>>): seq<TextContent>
  {
    match db(query)
    case Some(rows) => [TextContent(QueryRows(rows))]
    case None => [TextContent(QueryFailed)]
  }

  /** A text argument; a missing or non-text value reads as "". */
  function ArgText(args: map<string, Json>, key: string): string
  {
    if key in args && args[key].JStr? then args[key].s else ""
  }

  /** `handle_call_tool`. */
  function HandleCallTool(name: string, args: map<string, Json>, d: McpTemplate.Disk,
                          db: string -> Option<seq<string>>): CallOutcome
  {
    if name == QueryTool then Contents(DatabaseHandler(ArgText(args, "query"), db))
    else if name == DocumentTool then Contents(DocumentHandler(d, ArgText(args, "action"), ArgText(args, "filename")))
    else UnknownTool(name)
  }

  /**
   * The dispatcher answers exactly the advertised names, always with one text
   * element, and raises for every other name.
   */
  lemma DispatchMatchesAdvertised(name: string, args: map<string, Json>, d: McpTemplate.Disk,
                                  db: string -> Option<seq<string>>)
    ensures HandleCallTool(name, args, d, db).Contents? <==> exists k :: 0 <= k < |ListTools()| && ListTools()[k].name == name
    ensures HandleCallTool(name, args, d, db).Contents? ==> |HandleCallTool(name, args, d, db).items| == 1
    ensures HandleCallTool(name, args, d, db).UnknownTool? ==> HandleCallTool(name, args, d, db).name == name
  {
    if name == QueryTool {
      assert ListTools()[0].name == name;
    } else if name == DocumentTool {
      assert ListTools()[1].name == name;
    }
  }

  /** A missing action reads as "", which is the invalid-action error. */
  lemma MissingActionInvalid(args: map<string, Json>, d: McpTemplate.Disk, db: string -> Option<seq<string>>)
    requires "action" !in args
    ensures HandleCallTool(DocumentTool, args, d, db) == Contents([TextContent(DocPayload(DocError(InvalidAction)))])
  {
  }

  /** A missing query runs the empty query. */
  lemma MissingQueryEmpty(args: map<string, Json>, d: McpTemplate.Disk, db: string -> Option<seq<string>>)
    requires "query" !in args
    ensures HandleCallTool(QueryTool, args, d, db) == Contents(DatabaseHandler("", db))
  {
  }

  /**
   * Reading returns name and content (line ends read as '\n', so text
   * without a '\r' comes back exactly) for a stored document, and the
   * not-found error otherwise.
   */
  lemma DocumentRead(d: McpTemplate.Disk, filename: string)
    requires filename != ""
    ensures filename in d.files ==> DocumentAccess(d, "read", filename) == DocContent(filename, ReadText(d.files[filename]))
    ensures filename in d.files && '\r' !in d.files[filename] ==>
      DocumentAccess(d, "read", filename) == DocContent(filename, d.files[filename])
    ensures filename !in d.files ==> DocumentAccess(d, "read", filename) == DocError("File " + filename + " not found")
  {
    if filename in d.files && '\r' !in d.files[filename] {
      ReadTextPlain(d.files[filename]);
    }
  }

  /** The database handler answers with one element whether the SQL succeeds or fails. */
  lemma DatabaseOneElement(query: string, db: string -> Option<seq<string>>)
    ensures |DatabaseHandler(query, db)| == 1
    ensures DatabaseHandler(query, db)[0].payload.QueryFailed? <==> db(query).None?
  {
  }

  datatype ServerInfo = ServerInfo(name: string, version: string, tools: seq<string>)

  function GetServerInfo(): ServerInfo
  {
    ServerInfo(ServerName, "1.0.0", [QueryTool, DocumentTool])
  }

  /** The names in the server info are the names the list-tools handler advertises, in order. */
  lemma ServerInfoMatchesListing()
    ensures |GetServerInfo().tools| == |ListTools()|
    ensures forall k :: 0 <= k < |ListTools()| ==> GetServerInfo().tools[k] == ListTools()[k].name
  {
  }
}
