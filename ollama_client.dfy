/**
 * The Ollama-backed MCP client: the model's reply classified into one content
 * item, the message list and the tool list serialised into prompt text, the
 * server-script check, and the bounded tool-calling loop with the model, the
 * HTTP transport and the MCP session as oracles.
 */
module OllamaLoop {
  import opened Text
  import opened Values

  // ---------------------------------------------------------------------
  // Messages and their prompt text
  // ---------------------------------------------------------------------

  /** One element of a list-valued message content. */
  datatype Part =
    | TextPart(text: string)
    | ToolUsePart(name: Json, arguments: Json)
    | ToolResultPart(content: string)   // "" when the item has no content
    | OtherDict                         // a dict of any other type: dropped
    | NonDict(str: string)              // anything else, by its `str`

  datatype MessageContent = StrContent(s: string) | ListContent(parts: seq<Part>) | OtherContent

  datatype Message = Message(role: string, content: MessageContent)

  /**
   * The text of one list element; `render` is Python's `str` of a decoded
   * value, used for the tool name and arguments.
   */
  function PartText(p: Part, render: Json -> string): Option<string>
  {
    match p
    case TextPart(t) => Some(t)
    case ToolUsePart(n, a) => Some("Used tool " + render(n) + " with arguments: " + render(a))
    case ToolResultPart(c) => Some("Tool result: " + c)
    case OtherDict => None
    case NonDict(s) => Some(s)
  }

  /** The texts of a list content, in order, without the dropped elements. */
  function PartTexts(ps: seq<Part>, render: Json -> string): (r: seq<string>)
    ensures |r| <= |ps|
  {
    if |ps| == 0 then []
    else
      var init := PartTexts(ps[..|ps| - 1], render);
      match PartText(ps[|ps| - 1], render)
      case Some(t) => init + [t]
      case None => init
  }

  /** The prompt part of one message; content that is neither text nor a list adds none. */
  function MessageText(m: Message, render: Json -> string): Option<string>
  {
    match m.content
    case StrContent(c) => Some(if m.role == "tool" then "TOOL_RESULT: " + c else Upper(m.role) + ": " + c)
    case ListContent(ps) => Some(Upper(m.role) + ": " + Join(PartTexts(ps, render), " "))
    case OtherContent => None
  }

  function PromptParts(ms: seq<Message>, render: Json -> string): (r: seq<string>)
    ensures |r| <= |ms|
  {
    if |ms| == 0 then []
    else
      var init := PromptParts(ms[..|ms| - 1], render);
      match MessageText(ms[|ms| - 1], render)
      case Some(t) => init + [t]
      case None => init
  }

  lemma PartTextsStep(ps: seq<Part>, j: nat, render: Json -> string)
    requires j < |ps|
    ensures PartTexts(ps[..j + 1], render)
            == PartTexts(ps[..j], render) + (match PartText(ps[j], render) case Some(t) => [t] case None => [])
  {
    assert ps[..j + 1][..j] == ps[..j];
  }

  lemma PromptPartsStep(ms: seq<Message>, i: nat, render: Json -> string)
    requires i < |ms|
    ensures PromptParts(ms[..i + 1], render)
            == PromptParts(ms[..i], render) + (match MessageText(ms[i], render) case Some(t) => [t] case None => [])
  {
    assert ms[..i + 1][..i] == ms[..i];
  }

  /** `_convert_messages_to_prompt`: one part per message, blank lines between. */
  method ConvertMessagesToPrompt(messages: seq<Message>, render: Json -> string) returns (prompt: string)
    ensures prompt == Join(PromptParts(messages, render), "\n\n")
  {
    var parts: seq<string> := [];
    var i := 0;
    while i < |messages|
      invariant 0 <= i <= |messages|
      invariant parts == PromptParts(messages[..i], render)
    {
      PromptPartsStep(messages, i, render);
      var m := messages[i];
      match m.content {
        case StrContent(c) =>
          if m.role == "tool" {
            parts := parts + ["TOOL_RESULT: " + c];
          } else {
            parts := parts + [Upper(m.role) + ": " + c];
          }
        case ListContent(ps) =>
          var texts: seq<string> := [];
          var j := 0;
          while j < |ps|
            invariant 0 <= j <= |ps|
            invariant texts == PartTexts(ps[..j], render)
          {
            PartTextsStep(ps, j, render);
            match ps[j] {
              case TextPart(t) => texts := texts + [t];
              case ToolUsePart(n, a) => texts := texts + ["Used tool " + render(n) + " with arguments: " + render(a)];
              case ToolResultPart(c) => texts := texts + ["Tool result: " + c];
              case OtherDict =>
              case NonDict(s) => texts := texts + [s];
            }
            j := j + 1;
          }
          assert ps[..|ps|] == ps;
          parts := parts + [Upper(m.role) + ": " + Join(texts, " ")];
        case OtherContent =>
      }
      i := i + 1;
    }
    assert messages[..|messages|] == messages;
    prompt := Join(parts, "\n\n");
  }

  /** The prompt parts of a conversation are those of its pieces, in order. */
  lemma {:induction false} PromptPartsAppend(a: seq<Message>, b: seq<Message>, render: Json -> string)
    ensures PromptParts(a + b, render) == PromptParts(a, render) + PromptParts(b, render)
    decreases |b|
  {
    if |b| == 0 {
      assert a + b == a;
    } else {
      var b' := b[..|b| - 1];
      assert (a + b)[..|a + b| - 1] == a + b';
      assert (a + b)[|a + b| - 1] == b[|b| - 1];
      PromptPartsAppend(a, b', render);
    }
  }

  /** When no element is dropped, every element gives its own text at its own position. */
  lemma {:induction false} PartTextsKeepAll(ps: seq<Part>, render: Json -> string)
    requires forall k :: 0 <= k < |ps| ==> !ps[k].OtherDict?
    ensures |PartTexts(ps, render)| == |ps|
    ensures forall k :: 0 <= k < |ps| ==> Some(PartTexts(ps, render)[k]) == PartText(ps[k], render)
  {
    if |ps| > 0 {
      PartTextsKeepAll(ps[..|ps| - 1], render);
    }
  }

  /** Dropped elements add no text: their list renders as if they were absent. */
  lemma {:induction false} OtherDictsDropped(ps: seq<Part>, render: Json -> string)
    requires forall k :: 0 <= k < |ps| ==> ps[k].OtherDict?
    ensures PartTexts(ps, render) == []
  {
    if |ps| > 0 {
      OtherDictsDropped(ps[..|ps| - 1], render);
    }
  }

  /**
   * A text message of the tool role is marked as a tool result; any other
   * role is written upper-case before the text.
   */
  lemma TextMessageParts(role: string, c: string, render: Json -> string)
    ensures role == "tool" ==> PromptParts([Message(role, StrContent(c))], render) == ["TOOL_RESULT: " + c]
    ensures role != "tool" ==> PromptParts([Message(role, StrContent(c))], render) == [Upper(role) + ": " + c]
    ensures |Upper(role)| == |role|
  {
    var ms := [Message(role, StrContent(c))];
    assert ms[..0] == [];
  }

  // ---------------------------------------------------------------------
  // The tool list in the prompt
  // ---------------------------------------------------------------------

  /** A parameter: its name, its declared type if any, and its description ("" for none). */
  datatype Param = Param(name: string, typ: Option<string>, description: string)

  /** A tool as listed by the server; `params` are the schema's properties in order. */
  datatype ToolSpec = ToolSpec(name: string, description: string, params: seq<Param>)

  function ParamText(p: Param): string
  {
    p.name + " (" + (if p.typ.Some? then p.typ.value else "any") + ")"
    + (if p.description != "" then ": " + p.description else "")
  }

  function ToolEntry(t: ToolSpec): string
  {
    "- " + t.name + ": " + t.description
    + (if |t.params| > 0 then "\n  Parameters: " + Join(seq(|t.params|, k requires 0 <= k < |t.params| => ParamText(t.params[k])), ", ") else "")
  }

  /** `_format_tools_for_prompt`: one entry per tool, one per line. */
  method FormatToolsForPrompt(tools: seq<ToolSpec>) returns (text: string)
    ensures text == Join(seq(|tools|, k requires 0 <= k < |tools| => ToolEntry(tools[k])), "\n")
  {
    var entries: seq<string> := [];
    var i := 0;
    while i < |tools|
      invariant 0 <= i <= |tools| && |entries| == i
      invariant forall k :: 0 <= k < i ==> entries[k] == ToolEntry(tools[k])
    {
      var t := tools[i];
      var entry := "- " + t.name + ": " + t.description;
      if |t.params| > 0 {
        var params: seq<string> := [];
        var j := 0;
        while j < |t.params|
          invariant 0 <= j <= |t.params| && |params| == j
          invariant forall k :: 0 <= k < j ==> params[k] == ParamText(t.params[k])
        {
          var p := t.params[j];
          var desc := p.name + " (" + (if p.typ.Some? then p.typ.value else "any") + ")";
          if p.description != "" {
            desc := desc + ": " + p.description;
          }
          params := params + [desc];
          j := j + 1;
        }
        assert params == seq(|t.params|, k requires 0 <= k < |t.params| => ParamText(t.params[k]));
        entry := entry + "\n  Parameters: " + Join(params, ", ");
      }
      entries := entries + [entry];
      i := i + 1;
    }
    assert entries == seq(|tools|, k requires 0 <= k < |tools| => ToolEntry(tools[k]));
    text := Join(entries, "\n");
  }

  /**
   * Every entry opens with "- name: description"; the Parameters line is
   * there exactly when the schema has properties.
   */
  lemma ToolEntryShape(t: ToolSpec)
    ensures StartsWith(ToolEntry(t), "- " + t.name + ": " + t.description)
    ensures |t.params| == 0 <==> ToolEntry(t) == "- " + t.name + ": " + t.description
  {
    var head := "- " + t.name + ": " + t.description;
    assert ToolEntry(t)[..|head|] == head;
  }

  /** A parameter without a declared type is shown as "any"; its description follows a colon when it has one. */
  lemma ParamTextShape(p: Param)
    ensures p.typ.None? && p.description == "" ==> ParamText(p) == p.name + " (any)"
    ensures p.typ.Some? && p.description == "" ==> ParamText(p) == p.name + " (" + p.typ.value + ")"
    ensures p.description != "" ==> EndsWith(ParamText(p), ": " + p.description)
  {
  }

  // ---------------------------------------------------------------------
  // generate
  // ---------------------------------------------------------------------

  /** A content item of a reply: text (whatever value the model gave) or a tool use. */
  datatype Content = TextItem(text: Json) | ToolUseItem(toolUse: Json)

  const Sorry := "Sorry, I encountered an error while processing your request."

  const ToolPreamble := "You have access to the following tools:\n"

  /** The tool instructions, line by line; the prompt holds them joined by newlines. */
  const InstructionLines: seq<string> := [
    "",
    "",
    "To use a tool, respond with a JSON object in this exact format:",
    "{",
    "  \"tool_use\": {",
    "    \"name\": \"tool_name\",",
    "    \"arguments\": {\"param\": \"value\"}",
    "  }",
    "}",
    "",
    "To respond normally without tools (especially when you have TOOL_RESULT information to work with), use this format:",
    "{",
    "  \"response\": \"your normal text response here incorporating any tool results\"",
    "}",
    "",
    "When you see TOOL_RESULT in the conversation, use that information to provide a comprehensive answer to the user's question. Do not call tools again unless you need additional information.",
    "",
    ""
  ]

  const ToolInstructions := Join(InstructionLines, "\n")

  /** The prompt sent: the conversation, preceded by the tool instructions when there are tools. */
  function SentPrompt(messages: seq<Message>, tools: seq<ToolSpec>, render: Json -> string): (r: string)
    ensures EndsWith(r, Join(PromptParts(messages, render), "\n\n"))
    ensures tools != [] ==> StartsWith(r, ToolPreamble)
  {
    var conversation := Join(PromptParts(messages, render), "\n\n");
    if tools == [] then conversation
    else
      var descriptions := Join(seq(|tools|, k requires 0 <= k < |tools| => ToolEntry(tools[k])), "\n");
      ConcatEnds(ToolPreamble, descriptions, ToolInstructions, conversation);
      ToolPreamble + descriptions + ToolInstructions + conversation
  }

  /**
   * The item for a reply decoded as JSON. A `tool_use` key wins over a
   * `response` key; a list or a string is searched with `in`, and indexing it
   * then raises, as does `in` on a number, a boolean or null — every such
   * raise ends in the apology text.
   */
  function ClassifyDecoded(raw: string, decoded: Option<Json>): Content
  {
    match decoded
    case None => TextItem(JStr(raw))
    case Some(JObj(f)) =>
      if "tool_use" in f then ToolUseItem(f["tool_use"])
      else if "response" in f then TextItem(f["response"])
      else TextItem(JStr(raw))
    case Some(JArr(items)) =>
      if JStr("tool_use") in items || JStr("response") in items then TextItem(JStr(Sorry)) else TextItem(JStr(raw))
    case Some(JStr(s)) =>
      if Contains(s, "tool_use") || Contains(s, "response") then TextItem(JStr(Sorry)) else TextItem(JStr(raw))
    case Some(_) => TextItem(JStr(Sorry))
  }

  /**
   * The reply of `generate`, given the raw `response` text the API returned
   * (`None` when the request, its status or its body fails).
   */
  function GenerateReply(hasTools: bool, raw: Option<string>, decode: string -> Option<Json>): (r: seq<Content>)
    ensures |r| == 1
    ensures !hasTools && raw.Some? ==> r == [TextItem(JStr(raw.value))]
  {
    if raw.None? then [TextItem(JStr(Sorry))]
    else if !hasTools then [TextItem(JStr(raw.value))]
    else [ClassifyDecoded(raw.value, decode(raw.value))]
  }

  /**
   * A tool use is reported exactly when tools were offered and the reply
   * decodes to an object with a `tool_use` key, whatever else it holds.
   */
  lemma ToolUseOnlyWithTools(hasTools: bool, raw: Option<string>, decode: string -> Option<Json>)
    ensures GenerateReply(hasTools, raw, decode)[0].ToolUseItem? <==>
      hasTools && raw.Some? && decode(raw.value).Some? && decode(raw.value).value.JObj?
      && "tool_use" in decode(raw.value).value.fields
    ensures GenerateReply(hasTools, raw, decode)[0].ToolUseItem? ==>
      GenerateReply(hasTools, raw, decode)[0].toolUse == decode(raw.value).value.fields["tool_use"]
  {
  }

  /** A reply that is not JSON, or JSON without either key, is passed on as raw text. */
  lemma RawTextFallback(raw: string, decode: string -> Option<Json>)
    requires decode(raw).None? ||
      (decode(raw).value.JObj? && "tool_use" !in decode(raw).value.fields && "response" !in decode(raw).value.fields)
    ensures GenerateReply(true, Some(raw), decode) == [TextItem(JStr(raw))]
  {
  }

  /** The oracles: the Ollama HTTP API, the JSON decoder, `str`, and the MCP session's tool call. */
  datatype CallResult = Done(content: string) | Failed(error: string)

  datatype Env = Env(
    http: (string, bool) -> Option<string>,   // (prompt, JSON format forced) to the raw `response` text
    decode: string -> Option<Json>,
    render: Json -> string,
    call: (Json, Json) -> CallResult)

  lemma ConcatEnds(a: string, b: string, c: string, d: string)
    ensures StartsWith(a + b + c + d, a) && EndsWith(a + b + c + d, d)
  {
    var s := a + b + c + d;
    assert s[..|a|] == a;
    assert s[|s| - |d|..] == d;
  }

  /** What `generate` answers on a conversation, offering the given tools. */
  function Reply(messages: seq<Message>, tools: seq<ToolSpec>, env: Env): (r: seq<Content>)
    ensures |r| == 1
    ensures tools == [] ==> r[0].TextItem? && r[0].text.JStr?
  {
    GenerateReply(tools != [], env.http(SentPrompt(messages, tools, env.render), tools != []), env.decode)
  }

  /** `generate`: the JSON format is forced exactly when tools are offered. */
  method Generate(messages: seq<Message>, tools: seq<ToolSpec>, env: Env) returns (r: seq<Content>)
    ensures r == Reply(messages, tools, env)
  {
    var prompt := ConvertMessagesToPrompt(messages, env.render);
    if tools != [] {
      var descriptions := FormatToolsForPrompt(tools);
      prompt := ToolPreamble + descriptions + ToolInstructions + prompt;
    }
    assert prompt == SentPrompt(messages, tools, env.render);
    var raw := env.http(prompt, tools != []);
    if raw.None? {
      r := [TextItem(JStr(Sorry))];
    } else if tools == [] {
      r := [TextItem(JStr(raw.value))];
    } else {
      r := [ClassifyDecoded(raw.value, env.decode(raw.value))];
    }
  }

  // ---------------------------------------------------------------------
  // The tool-calling loop
  // ---------------------------------------------------------------------

  const MaxIterations: nat := 10
  const SummaryRequest := "Please provide a final summary response based on all the tool results above."

  /** A tool use's name and arguments; `None` when it is not an object with both keys, and the loop raises. */
  function ToolCallOf(toolUse: Json): Option<(Json, Json)>
  {
    if toolUse.JObj? && "name" in toolUse.fields && "arguments" in toolUse.fields then
      Some((toolUse.fields["name"], toolUse.fields["arguments"]))
    else None
  }

  /** The two messages one tool use appends: the assistant's tool use, then the result or the error. */
  function Exchange(name: Json, arguments: Json, result: CallResult): seq<Message>
  {
    [Message("assistant", ListContent([ToolUsePart(name, arguments)])),
     Message("tool", StrContent(match result case Done(c) => "Tool result: " + c case Failed(e) => "Error: " + e))]
  }

  /** What an iteration has gathered: appended messages, texts, whether a tool was used. */
  datatype Gathered = Gathered(added: seq<Message>, texts: seq<Json>, usedTool: bool)

  function ToolUses(items: seq<Content>): nat
  {
    if |items| == 0 then 0 else (if items[0].ToolUseItem? then 1 else 0) + ToolUses(items[1..])
  }

  /** Processing the reply's items from `g` on; `None` when a malformed tool use raises. */
  function Gather(g: Gathered, items: seq<Content>, call: (Json, Json) -> CallResult): (r: Option<Gathered>)
    ensures r.Some? ==> |r.value.added| == |g.added| + 2 * ToolUses(items)
    ensures r.Some? ==> (r.value.usedTool <==> g.usedTool || ToolUses(items) > 0)
    ensures r.Some? ==> g.added <= r.value.added
    decreases |items|
  {
    if |items| == 0 then Some(g)
    else match items[0]
      case TextItem(t) => Gather(g.(texts := g.texts + [t]), items[1..], call)
      case ToolUseItem(tu) =>
        match ToolCallOf(tu)
        case None => None
        case Some((n, a)) => Gather(Gathered(g.added + Exchange(n, a, call(n, a)), g.texts, true), items[1..], call)
  }

  /** The texts joined by newlines; joining raises on a value that is not text. */
  function TextAnswer(texts: seq<Json>): Outcome
  {
    if forall k :: 0 <= k < |texts| ==> texts[k].JStr? then
      Answer(Join(seq(|texts|, k requires 0 <= k < |texts| => texts[k].s), "\n"))
    else Raised
  }

  datatype Outcome = Answer(text: string) | Raised

  /** A finished query: its outcome and how many times the model was called. */
  datatype Run = Run(outcome: Outcome, generateCalls: nat)

  /** A run reached after `n` earlier model calls. */
  function Later(r: Run, n: nat): Run
  {
    Run(r.outcome, r.generateCalls + n)
  }

  /** The tool-free summary call on the conversation plus the summary request. */
  function Summary(messages: seq<Message>, env: Env): Outcome
  {
    TextAnswer([Reply(messages + [Message("user", StrContent(SummaryRequest))], [], env)[0].text])
  }

  /**
   * `process_query` from the given iteration on: an iteration without a tool
   * use answers with its texts; after the last iteration comes the summary.
   */
  function Loop(messages: seq<Message>, iteration: nat, tools: seq<ToolSpec>, env: Env): (r: Run)
    requires iteration <= MaxIterations
    ensures 1 <= r.generateCalls <= MaxIterations - iteration + 1
    decreases MaxIterations - iteration
  {
    if iteration == MaxIterations then Run(Summary(messages, env), 1)
    else
      match Gather(Gathered([], [], false), Reply(messages, tools, env), env.call)
      case None => Run(Raised, 1)
      case Some(g) =>
        if !g.usedTool then Run(TextAnswer(g.texts), 1)
        else
          Later(Loop(messages + g.added, iteration + 1, tools, env), 1)
  }

  /** One iteration of the loop, as the method takes it. */
  lemma LoopStep(messages: seq<Message>, iteration: nat, tools: seq<ToolSpec>, env: Env)
    requires iteration < MaxIterations
    ensures var g := Gather(Gathered([], [], false), Reply(messages, tools, env), env.call);
      && (g.None? ==> Loop(messages, iteration, tools, env) == Run(Raised, 1))
      && (g.Some? && !g.value.usedTool ==> Loop(messages, iteration, tools, env) == Run(TextAnswer(g.value.texts), 1))
      && (g.Some? && g.value.usedTool ==>
            Loop(messages, iteration, tools, env) == Later(Loop(messages + g.value.added, iteration + 1, tools, env), 1))
  {
  }

  /** After the last iteration only the summary call is left. */
  lemma LoopEnd(messages: seq<Message>, tools: seq<ToolSpec>, env: Env)
    ensures Later(Loop(messages, MaxIterations, tools, env), MaxIterations) == Run(Summary(messages, env), MaxIterations + 1)
  {
  }

  /** One iteration of the loop, counted from the start, given what the reply gathered. */
  lemma LoopAt(messages: seq<Message>, iteration: nat, tools: seq<ToolSpec>, env: Env, g: Option<Gathered>)
    requires iteration < MaxIterations
    requires g == Gather(Gathered([], [], false), Reply(messages, tools, env), env.call)
    ensures g.None? ==> Later(Loop(messages, iteration, tools, env), iteration) == Run(Raised, iteration + 1)
    ensures g.Some? && !g.value.usedTool ==>
              Later(Loop(messages, iteration, tools, env), iteration) == Run(TextAnswer(g.value.texts), iteration + 1)
    ensures g.Some? && g.value.usedTool ==>
              Later(Loop(messages, iteration, tools, env), iteration)
              == Later(Loop(messages + g.value.added, iteration + 1, tools, env), iteration + 1)
  {
    LoopStep(messages, iteration, tools, env);
  }

  /** The conversation a query starts from. */
  function Opening(query: string): seq<Message>
  {
    [Message("user", StrContent(query))]
  }

  /**
   * Without tools the model cannot ask for one: the query is answered by
   * the first call, with the reply's text.
   */
  lemma NoToolsAnswersAtOnce(query: string, env: Env)
    ensures Loop(Opening(query), 0, [], env).generateCalls == 1
    ensures Loop(Opening(query), 0, [], env).outcome.Answer?
  {
    var items := Reply(Opening(query), [], env);
    assert items[1..] == [];
    var g1 := Gathered([], [], false).(texts := [] + [items[0].text]);
    assert g1 == Gathered([], [items[0].text], false);
    assert Gather(g1, items[1..], env.call) == Some(g1);
    assert Gather(Gathered([], [], false), items, env.call) == Some(Gathered([], [items[0].text], false));
  }

  /**
   * A reply whose one item is a well-formed tool use appends exactly the two
   * exchange messages, whether the call succeeds or fails, and another
   * iteration follows.
   */
  lemma ToolUseAppendsExchange(name: Json, arguments: Json, call: (Json, Json) -> CallResult)
    ensures var tu := JObj(map["name" := name, "arguments" := arguments]);
      Gather(Gathered([], [], false), [ToolUseItem(tu)], call)
        == Some(Gathered(Exchange(name, arguments, call(name, arguments)), [], true))
  {
    var tu := JObj(map["name" := name, "arguments" := arguments]);
    assert ToolCallOf(tu) == Some((name, arguments));
    var ex := Exchange(name, arguments, call(name, arguments));
    var g := Gathered(ex, [], true);
    assert [] + ex == ex;
    assert [ToolUseItem(tu)][1..] == [];
    assert Gather(g, [], call) == Some(g);
  }

  /** The exchange is serialised as the assistant's tool use and a marked tool result. */
  lemma ExchangeParts(name: Json, arguments: Json, content: string, render: Json -> string)
    ensures PromptParts(Exchange(name, arguments, Done(content)), render) ==
      ["ASSISTANT: " + ("Used tool " + render(name) + " with arguments: " + render(arguments)),
       "TOOL_RESULT: " + ("Tool result: " + content)]
  {
    var ex := Exchange(name, arguments, Done(content));
    var ps := [ToolUsePart(name, arguments)];
    assert ps[..0] == [];
    assert PartTexts(ps, render) == ["Used tool " + render(name) + " with arguments: " + render(arguments)];
    assert Upper("assistant") == "ASSISTANT";
    assert ex[0] == Message("assistant", ListContent(ps));
    assert "ASSISTANT" + ": " == "ASSISTANT: ";
    assert [ex[0]][..0] == [];
    assert PromptParts([ex[0]], render) == ["ASSISTANT: " + ("Used tool " + render(name) + " with arguments: " + render(arguments))];
    assert ex[1] == Message("tool", StrContent("Tool result: " + content));
    assert [ex[1]][..0] == [];
    assert PromptParts([ex[1]], render) == ["TOOL_RESULT: " + ("Tool result: " + content)];
    assert ex == [ex[0]] + [ex[1]];
    PromptPartsAppend([ex[0]], [ex[1]], render);
  }

  /**
   * The pass over one reply's items: texts are collected, and each tool use
   * is called and appends its exchange.
   */
  method GatherReply(items: seq<Content>, call: (Json, Json) -> CallResult) returns (g: Option<Gathered>)
    ensures g == Gather(Gathered([], [], false), items, call)
  {
    var acc := Gathered([], [], false);
    var j := 0;
    while j < |items|
      invariant 0 <= j <= |items|
      invariant Gather(acc, items[j..], call) == Gather(Gathered([], [], false), items, call)
    {
      assert items[j..][1..] == items[j + 1..];
      match items[j] {
        case TextItem(t) =>
          acc := acc.(texts := acc.texts + [t]);
        case ToolUseItem(tu) =>
          var tc := ToolCallOf(tu);
          if tc.None? {
            return None;
          }
          var (n, a) := tc.value;
          acc := Gathered(acc.added + Exchange(n, a, call(n, a)), acc.texts, true);
      }
      j := j + 1;
    }
    assert items[|items|..] == [];
    g := Some(acc);
  }

  /** The final tool-free call; the conversation itself is left as it is. */
  method Summarize(messages: seq<Message>, env: Env) returns (o: Outcome)
    ensures o == Summary(messages, env)
  {
    var final := Generate(messages + [Message("user", StrContent(SummaryRequest))], [], env);
    o := TextAnswer([final[0].text]);
  }

  /** The MCP client of the Ollama example: a session set by connecting. */
  class Client {
    var session: Option<nat>

    constructor()
      ensures session == None
    {
      session := None;
    }

    /**
     * `connect_to_server`: the script path picks the command, or is refused
     * before anything is spawned; `handshake` is the session the SDK opens,
     * `None` when spawning or the handshake raises. The code stores the
     * session before `initialize()`, so a failed handshake leaves it set
     * there; the model keeps the old session instead, which nothing can
     * observe, because `main` ends on that error.
     */
    method ConnectToServer(path: string, handshake: Option<nat>) returns (command: Option<string>)
      modifies this
      ensures command == ServerCommand(path)
      ensures command.Some? && handshake.Some? ==> session == handshake
      ensures command.None? || handshake.None? ==> session == old(session)
    {
      var isPython := EndsWith(path, ".py");
      var isJs := EndsWith(path, ".js");
      if !(isPython || isJs) {
        return None;
      }
      command := Some(if isPython then "python" else "node");
      if handshake.Some? {
        session := handshake;
      }
    }

    /**
     * `process_query`; `listed` are the tools the session lists. Without a
     * session the call raises before the model is asked.
     */
    method ProcessQuery(query: string, listed: seq<ToolSpec>, env: Env) returns (r: Run)
      ensures session.None? ==> r == Run(Raised, 0)
      ensures session.Some? ==> r == Loop(Opening(query), 0, listed, env)
    {
      if session.None? {
        return Run(Raised, 0);
      }
      var messages := Opening(query);
      ghost var target := Loop(messages, 0, listed, env);
      var iteration := 0;
      while iteration < MaxIterations
        invariant iteration <= MaxIterations
        invariant target == Later(Loop(messages, iteration, listed, env), iteration)
      {
        var items := Generate(messages, listed, env);
        var g := GatherReply(items, env.call);
        LoopAt(messages, iteration, listed, env, g);
        if g.None? {
          return Run(Raised, iteration + 1);
        }
        if !g.value.usedTool {
          return Run(TextAnswer(g.value.texts), iteration + 1);
        }
        var next := messages + g.value.added;
        assert target == Later(Loop(next, iteration + 1, listed, env), iteration + 1);
        iteration := iteration + 1;
        messages := next;
      }
      LoopEnd(messages, listed, env);
      var summary := Summarize(messages, env);
      r := Run(summary, MaxIterations + 1);
    }
  }

  /**
   * The command for a server script: python for ".py", node for ".js",
   * nothing for any other path.
   */
  function ServerCommand(path: string): (r: Option<string>)
    ensures r == Some("python") <==> EndsWith(path, ".py")
    ensures r == Some("node") <==> EndsWith(path, ".js")
    ensures r.None? <==> !EndsWith(path, ".py") && !EndsWith(path, ".js")
  {
    ExtensionsExclusive(path);
    if EndsWith(path, ".py") then Some("python")
    else if EndsWith(path, ".js") then Some("node")
    else None
  }

  /** No path ends in both extensions. */
  lemma ExtensionsExclusive(path: string)
    ensures !(EndsWith(path, ".py") && EndsWith(path, ".js"))
  {
    if EndsWith(path, ".py") {
      assert path[|path| - 1] == 'y';
    }
  }
}
