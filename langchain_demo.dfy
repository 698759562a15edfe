/**
 * The MCP + LangChain demo: the colon adapter in front of the document
 * tool, the scripted demo's routing of its test requests, and the keyword
 * routing of the interactive loop.
 */
module LangchainDemo {
  import opened Text
  import opened Values
  import McpTemplate
  import McpServer
  import McpClient

  // ---------------------------------------------------------------------
  // The document-tool adapter
  // ---------------------------------------------------------------------

  /**
   * The positional arguments the adapter passes: `("list",)` when the input
   * has no colon, else every colon-separated part. `None` when there are
   * more than two parts, which `execute(action, filename)` cannot take.
   */
  function AdapterArgs(input: string): (r: Option<(string, string)>)
    ensures !Contains(input, ":") ==> r == Some(("list", ""))
  {
    if !Contains(input, ":") then Some(("list", ""))
    else
      var parts := Split(input, ":");
      if |parts| == 2 then Some((parts[0], parts[1])) else None
  }

  /** What the adapted tool returns; `None` when the call itself raises. */
  function AdaptedDocumentTool(d: McpTemplate.Disk, input: string): Option<McpServer.DocReply>
  {
    match AdapterArgs(input)
    case None => None
    case Some((action, filename)) => Some(McpClient.DocumentExecute(d, action, filename))
  }

  /** Input without a colon always lists, even the bare word "read". */
  lemma NoColonLists(d: McpTemplate.Disk, input: string)
    requires ':' !in input
    ensures AdaptedDocumentTool(d, input) == Some(McpServer.DocFiles(d.names))
  {
    AbsentChar(input, ":", 0);
  }

  /** With exactly one colon, the action and the filename are the text around it. */
  lemma OneColonSplits(action: string, filename: string)
    requires ':' !in action && ':' !in filename
    ensures AdapterArgs(action + ":" + filename) == Some((action, filename))
  {
    var s := action + ":" + filename;
    OccursContains(s, ":", |action|);
    assert s[|action|..|action| + 1] == ":";
    SplitAfter(action, ":", filename, 0);
    SplitNone(filename, ":", 0);
  }

  /** A second colon makes three arguments, and the call raises. */
  lemma TwoColonsRaise(a: string, b: string, c: string)
    requires ':' !in a && ':' !in b
    ensures AdapterArgs(a + ":" + b + ":" + c) == None
  {
    var s := a + ":" + b + ":" + c;
    assert s == a + ":" + (b + ":" + c);
    OccursContains(s, ":", |a|);
    assert s[|a|..|a| + 1] == ":";
    SplitAfter(a, ":", b + ":" + c, 0);
    SplitAfter(b, ":", c, 0);
    assert |Split(s, ":")| >= 3;
  }

  // ---------------------------------------------------------------------
  // The scripted demo
  // ---------------------------------------------------------------------

  datatype ScriptedTool = PythonQuery | PolicyDocument | ProjectDocument | NoToolCall

  /** Routing of a scripted request: python or developer > policy > project. */
  function ScriptedRoute(request: string): ScriptedTool
  {
    var lower := Lower(request);
    if Contains(lower, "python") || Contains(lower, "developer") then PythonQuery
    else if Contains(lower, "policy") then PolicyDocument
    else if Contains(lower, "project") then ProjectDocument
    else NoToolCall
  }

  /** The adapter input each document route sends. */
  function ScriptedDocumentInput(t: ScriptedTool): string
  {
    match t
    case PolicyDocument => "read:" + "company_policy.md"
    case ProjectDocument => "read:" + "project_status.md"
    case _ => ""
  }

  /** Each scripted document route reads its file through the adapter. */
  lemma ScriptedDocumentsRead(d: McpTemplate.Disk)
    ensures AdapterArgs(ScriptedDocumentInput(PolicyDocument)) == Some(("read", "company_policy.md"))
    ensures AdapterArgs(ScriptedDocumentInput(ProjectDocument)) == Some(("read", "project_status.md"))
  {
    ReadInput("company_policy.md");
    ReadInput("project_status.md");
  }

  /** A read request for a file whose name has no colon. */
  lemma ReadInput(file: string)
    requires ':' !in file
    ensures AdapterArgs("read:" + file) == Some(("read", file))
  {
    assert "read:" + file == "read" + ":" + file;
    OneColonSplits("read", file);
  }

  /** A request naming python or a developer uses the database even when it mentions a policy. */
  lemma ScriptedPrecedence(request: string)
    ensures ScriptedRoute(request) == PythonQuery <==>
      Contains(Lower(request), "python") || Contains(Lower(request), "developer")
    ensures ScriptedRoute(request) == PolicyDocument <==>
      !Contains(Lower(request), "python") && !Contains(Lower(request), "developer") && Contains(Lower(request), "policy")
    ensures ScriptedRoute(request) == NoToolCall <==>
      !Contains(Lower(request), "python") && !Contains(Lower(request), "developer") &&
      !Contains(Lower(request), "policy") && !Contains(Lower(request), "project")
  {
  }

  // ---------------------------------------------------------------------
  // The interactive loop
  // ---------------------------------------------------------------------

  const DatabaseWords: seq<string> := ["employee", "who", "salary", "department", "skill"]
  const DocumentWords: seq<string> := ["document", "policy", "handbook", "project status"]
  const ExitWords: seq<string> := ["quit", "exit", "q"]

  datatype Step =
    | Quit
    | Idle                            // empty input: nothing happens
    | RunQuery(sql: string)           // the database tool, then the LLM on its data
    | ReadDocument(input: string)     // the document tool through its adapter, then the LLM
    | AskLlm                          // only the general LLM prompt; no tool

  /** The SQL for a database request: engineering > salary > all employees. */
  function InteractiveQuery(lower: string): string
  {
    if Contains(lower, "engineering") then "SELECT name, department, skills FROM employees WHERE department = 'Engineering'"
    else if Contains(lower, "salary") then "SELECT name, department, salary FROM employees ORDER BY salary DESC"
    else "SELECT * FROM employees"
  }

  /** The adapter input for a document request: policy > handbook > project > list. */
  function InteractiveDocument(lower: string): string
  {
    if Contains(lower, "policy") then "read:company_policy.md"
    else if Contains(lower, "handbook") then "read:team_handbook.md"
    else if Contains(lower, "project") then "read:project_status.md"
    else "list"
  }

  /** The line is an exit word, ignoring case and surrounding blanks. */
  predicate IsExit(raw: string)
  {
    Lower(Strip(raw)) in ExitWords
  }

  /** One turn of the loop on the raw input line. */
  function Interpret(raw: string): (r: Step)
    ensures r.Quit? <==> IsExit(raw)
  {
    var input := Strip(raw);
    var lower := Lower(input);
    if IsExit(raw) then Quit
    else if input == "" then Idle
    else if ContainsAny(lower, DatabaseWords) then RunQuery(InteractiveQuery(lower))
    else if ContainsAny(lower, DocumentWords) then ReadDocument(InteractiveDocument(lower))
    else AskLlm
  }

  /**
   * Database keywords are tested before document keywords; a request with
   * neither calls no tool.
   */
  lemma InteractivePrecedence(raw: string)
    requires Lower(Strip(raw)) !in ExitWords && Strip(raw) != ""
    ensures Interpret(raw).RunQuery? <==> ContainsAny(Lower(Strip(raw)), DatabaseWords)
    ensures Interpret(raw).ReadDocument? <==>
      !ContainsAny(Lower(Strip(raw)), DatabaseWords) && ContainsAny(Lower(Strip(raw)), DocumentWords)
    ensures Interpret(raw) == AskLlm <==>
      !ContainsAny(Lower(Strip(raw)), DatabaseWords) && !ContainsAny(Lower(Strip(raw)), DocumentWords)
  {
  }

  /** An engineering request gets the engineering query even when it also mentions salary. */
  lemma EngineeringBeatsSalary(lower: string)
    requires Contains(lower, "engineering")
    ensures InteractiveQuery(lower) == "SELECT name, department, skills FROM employees WHERE department = 'Engineering'"
  {
  }

  /** The exit words end the loop whatever their case or surrounding blanks: "  Quit " quits. */
  lemma ExitIgnoresCase(w1: string, w2: string)
    requires AllSpace(w1) && AllSpace(w2)
    ensures Interpret(w1 + "Quit" + w2).Quit?
  {
    StripPadded(w1, "Quit", w2);
    QuitIsExit(w1 + "Quit" + w2);
  }

  /** A line that strips to "Quit" is an exit word. */
  lemma QuitIsExit(raw: string)
    requires Strip(raw) == "Quit"
    ensures IsExit(raw)
  {
    assert Lower("Quit") == "quit";
  }

  /**
   * The loop over the lines typed: one step per line until the first step
   * that quits (by `Interpret`, exactly an exit word), which is the last
   * step taken; without one, every line is read.
   */
  method Session(inputs: seq<string>) returns (steps: seq<Step>)
    ensures |steps| <= |inputs|
    ensures forall k :: 0 <= k < |steps| ==> steps[k] == Interpret(inputs[k])
    ensures forall k :: 0 <= k < |steps| - 1 ==> !steps[k].Quit?
    ensures |steps| < |inputs| ==> |steps| > 0 && steps[|steps| - 1].Quit?
    ensures (forall k :: 0 <= k < |inputs| ==> !Interpret(inputs[k]).Quit?) ==> |steps| == |inputs|
  {
    steps := Turns(inputs, Interpret);
  }

  /** The `while True` loop with the decision taken on each line given as `decide`. */
  method Turns(inputs: seq<string>, decide: string -> Step) returns (steps: seq<Step>)
    ensures |steps| <= |inputs|
    ensures forall k :: 0 <= k < |steps| ==> steps[k] == decide(inputs[k])
    ensures forall k :: 0 <= k < |steps| - 1 ==> !steps[k].Quit?
    ensures |steps| < |inputs| ==> |steps| > 0 && steps[|steps| - 1].Quit?
    ensures (forall k :: 0 <= k < |inputs| ==> !decide(inputs[k]).Quit?) ==> |steps| == |inputs|
  {
    steps := [];
    var i := 0;
    while i < |inputs|
      invariant 0 <= i <= |inputs| && |steps| == i
      invariant forall k :: 0 <= k < i ==> steps[k] == decide(inputs[k])
      invariant forall k :: 0 <= k < i ==> !steps[k].Quit?
    {
      var step := decide(inputs[i]);
      steps := steps + [step];
      if step.Quit? {
        return;
      }
      i := i + 1;
    }
  }
}
