/**
 * The LangChain bridge for MCP tools: a wrapper that turns one LangChain
 * input string into tool keyword arguments, the read-only document tool, and
 * the keyword-driven mock LLM that plays analyst in the workflow demo.
 */
module LangchainBridge {
  import opened Text
  import opened Values
  import SystemDemo

  // ---------------------------------------------------------------------
  // The input wrapper
  // ---------------------------------------------------------------------

  /** What the wrapper returns: the tool result as JSON text, or "Error: ...". */
  datatype WrapOutput = Dumped(result: Json) | ErrorText

  /**
   * The keyword arguments the wrapper passes on: a '{'-prefixed input is
   * decoded and must be an object; otherwise the tool's name picks the key.
   */
  function WrapperArgs(toolName: string, input: string, decode: string -> Option<Json>): Option<map<string, Json>>
  {
    if StartsWith(input, "{") then
      match decode(input)
      case Some(JObj(fields)) => Some(fields)
      case _ => None
    else if toolName == "database_query" then Some(map["query" := JStr(input)])
    else if toolName == "file_operations" then Some(map["operation" := JStr("read"), "filename" := JStr(input)])
    else Some(map["input" := JStr(input)])
  }

  /**
   * One wrapper call; `execute` is the wrapped tool, answering `None` when
   * it raises. Every failure becomes the error text.
   */
  function ExecuteWrapper(toolName: string, input: string, decode: string -> Option<Json>,
                          execute: map<string, Json> -> Option<Json>): WrapOutput
  {
    match WrapperArgs(toolName, input, decode)
    case None => ErrorText
    case Some(args) =>
      match execute(args)
      case None => ErrorText
      case Some(result) => Dumped(result)
  }

  /** Plain input: the database tool gets `query`, the file tool a read, anything else `input`. */
  lemma PlainInputArgs(toolName: string, input: string, decode: string -> Option<Json>)
    requires !StartsWith(input, "{")
    ensures toolName == "database_query" ==> WrapperArgs(toolName, input, decode) == Some(map["query" := JStr(input)])
    ensures toolName == "file_operations" ==>
      WrapperArgs(toolName, input, decode) == Some(map["operation" := JStr("read"), "filename" := JStr(input)])
    ensures toolName !in {"database_query", "file_operations"} ==>
      WrapperArgs(toolName, input, decode) == Some(map["input" := JStr(input)])
  {
  }

  /** Structured input: the decoded object is passed through whatever the tool's name. */
  lemma StructuredInputArgs(toolName: string, input: string, decode: string -> Option<Json>)
    requires StartsWith(input, "{")
    ensures (exists fields :: decode(input) == Some(JObj(fields))) <==> WrapperArgs(toolName, input, decode).Some?
    ensures forall fields :: decode(input) == Some(JObj(fields)) ==> WrapperArgs(toolName, input, decode) == Some(fields)
  {
  }

  /** The wrapper reports a result exactly when the arguments bind and the tool does not raise. */
  lemma WrapperNeverRaises(toolName: string, input: string, decode: string -> Option<Json>,
                           execute: map<string, Json> -> Option<Json>)
    ensures ExecuteWrapper(toolName, input, decode, execute).Dumped? <==>
      WrapperArgs(toolName, input, decode).Some? && execute(WrapperArgs(toolName, input, decode).value).Some?
    ensures ExecuteWrapper(toolName, input, decode, execute).Dumped? ==>
      ExecuteWrapper(toolName, input, decode, execute).result == execute(WrapperArgs(toolName, input, decode).value).value
  {
  }

  // ---------------------------------------------------------------------
  // The document tool
  // ---------------------------------------------------------------------

  const PolicyName := "company_policy.txt"
  const StatusName := "project_status.txt"
  const HandbookName := "team_handbook.txt"

  /** The fixed document store, in its dict's key order. */
  datatype DocStore = DocStore(docs: map<string, string>, order: seq<string>)

  function Documents(policy: string, status: string, handbook: string): (s: DocStore)
    ensures s.order == [PolicyName, StatusName, HandbookName]
    ensures s.docs.Keys == {PolicyName, StatusName, HandbookName}
    ensures s.docs[PolicyName] == policy && s.docs[StatusName] == status && s.docs[HandbookName] == handbook
  {
    DocStore(map[PolicyName := policy, StatusName := status, HandbookName := handbook],
             [PolicyName, StatusName, HandbookName])
  }

  /** `execute(operation, filename)`; "" stands for a missing filename. */
  function DocExecute(s: DocStore, operation: string, filename: string): SystemDemo.Reply
  {
    if operation == "list" then SystemDemo.FilesReply(s.order)
    else if operation == "read" && filename != "" then
      if filename in s.docs then SystemDemo.ContentReply(s.docs[filename])
      else SystemDemo.ErrorReply("File " + filename + " not found")
    else SystemDemo.ErrorReply("Invalid operation")
  }

  /** Listing yields exactly the three stored names, once each. */
  lemma DocListExact(policy: string, status: string, handbook: string)
    ensures var r := DocExecute(Documents(policy, status, handbook), "list", "");
      r.FilesReply? && |r.files| == 3 && Distinct(r.files)
      && Elements(r.files) == Documents(policy, status, handbook).docs.Keys
  {
    var r := DocExecute(Documents(policy, status, handbook), "list", "");
    assert Elements(r.files) == {PolicyName, StatusName, HandbookName};
  }

  /** Reading a stored name gives its content; any other name is not found. */
  lemma DocRead(s: DocStore, filename: string)
    requires filename != ""
    ensures filename in s.docs ==> DocExecute(s, "read", filename) == SystemDemo.ContentReply(s.docs[filename])
    ensures filename !in s.docs ==> DocExecute(s, "read", filename) == SystemDemo.ErrorReply("File " + filename + " not found")
  {
  }

  /** Any other operation, or a read with no name, is an invalid operation. */
  lemma DocInvalid(s: DocStore, operation: string, filename: string)
    requires operation !in {"list", "read"} || (operation == "read" && filename == "")
    ensures DocExecute(s, operation, filename) == SystemDemo.ErrorReply("Invalid operation")
  {
  }

  // ---------------------------------------------------------------------
  // The mock LLM
  // ---------------------------------------------------------------------

  /** A message: its `content` attribute when it has one, else its `str`. */
  datatype Message = WithContent(content: string) | Plain(text: string)

  /** What `invoke` is given: a message list or a prompt string. */
  datatype LlmInput = MessageList(items: seq<Message>) | Prompt(text: string)

  function MessageText(m: Message): string
  {
    match m
    case WithContent(c) => c
    case Plain(t) => t
  }

  /**
   * The text `invoke` looks at: the last message of a list, or the prompt
   * itself. An empty list has no last message, and `invoke` raises.
   */
  function InvokeContent(input: LlmInput): (r: Option<string>)
    ensures input.MessageList? ==> (r.None? <==> |input.items| == 0)
  {
    match input
    case MessageList(items) => if |items| == 0 then None else Some(MessageText(items[|items| - 1]))
    case Prompt(text) => Some(text)
  }

  datatype Analysis = EmployeeRequest | ProjectRequest | PolicyRequest | GeneralRequest

  datatype MockReply =
    | Analysed(analysis: Analysis)
    | DataNeeds(needs: string)
    | Synthesised
    | Placeholder

  /** `_analyze_request`: employee > project > policy or handbook > general. */
  function AnalyzeRequest(content: string): Analysis
  {
    var lower := Lower(content);
    if Contains(lower, "employee") then EmployeeRequest
    else if Contains(lower, "project") then ProjectRequest
    else if Contains(lower, "policy") || Contains(lower, "handbook") then PolicyRequest
    else GeneralRequest
  }

  /** `_determine_data_needs`: employee > project > the policy document. */
  function DetermineDataNeeds(content: string): string
  {
    var lower := Lower(content);
    if Contains(lower, "employee") then "database:employees,documents:team_handbook"
    else if Contains(lower, "project") then "database:employees,documents:project_status"
    else "documents:company_policy"
  }

  /** `invoke` on the extracted text: analyse > determine data > synthesise > placeholder. */
  function InvokeOn(content: string): MockReply
  {
    var lower := Lower(content);
    if Contains(lower, "analyze") && Contains(lower, "request") then Analysed(AnalyzeRequest(content))
    else if Contains(lower, "determine") && Contains(lower, "data") then DataNeeds(DetermineDataNeeds(content))
    else if Contains(lower, "synthesize") then Synthesised
    else Placeholder
  }

  /** The reply is chosen by the first keyword test that holds, in the source's order. */
  lemma InvokePrecedence(content: string)
    ensures var lower := Lower(content);
      && (InvokeOn(content).Analysed? <==> Contains(lower, "analyze") && Contains(lower, "request"))
      && (InvokeOn(content).DataNeeds? <==>
            !(Contains(lower, "analyze") && Contains(lower, "request")) && Contains(lower, "determine") && Contains(lower, "data"))
      && (InvokeOn(content).Synthesised? <==>
            !(Contains(lower, "analyze") && Contains(lower, "request"))
            && !(Contains(lower, "determine") && Contains(lower, "data")) && Contains(lower, "synthesize"))
  {
  }

  /** An "employee" request is always an employee analysis and needs the handbook, whatever else it mentions. */
  lemma EmployeeWins(content: string)
    requires Contains(Lower(content), "employee")
    ensures AnalyzeRequest(content) == EmployeeRequest
    ensures DetermineDataNeeds(content) == "database:employees,documents:team_handbook"
  {
  }

  /** With neither "employee" nor "project", only the policy document is needed. */
  lemma DataNeedsDefault(content: string)
    requires !Contains(Lower(content), "employee") && !Contains(Lower(content), "project")
    ensures DetermineDataNeeds(content) == "documents:company_policy"
    ensures AnalyzeRequest(content) == PolicyRequest <==>
      Contains(Lower(content), "policy") || Contains(Lower(content), "handbook")
  {
  }
}
