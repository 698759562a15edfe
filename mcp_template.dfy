/**
 * The hand-rolled MCP server template: tools that describe themselves with
 * a manifest entry, a server that registers tools and resources by key and
 * mirrors them in its manifest, the workspace file tool (list, read, write,
 * search), and the way the Ollama agent cuts the JSON tool call out of a
 * model reply.
 */
module McpTemplate {
  import opened Text
  import opened Values

  const ToolVersion := "1.0.0"
  const ProtocolVersion := "2024-11-05"
  const InvalidRequest := "Invalid operation or missing parameters"

  // ---------------------------------------------------------------------
  // Tools and their manifest entries
  // ---------------------------------------------------------------------

  /** What a tool's JSON schema advertises. */
  datatype Schema = Schema(properties: seq<string>, operations: seq<string>, required: seq<string>)

  datatype ToolKind = DatabaseOperations | FileSystem

  function SchemaOf(kind: ToolKind): Schema
  {
    match kind
    case DatabaseOperations =>
      Schema(["operation", "sql", "params"], ["query", "insert", "update", "delete"], ["operation", "sql"])
    case FileSystem =>
      Schema(["operation", "path", "content", "query"], ["read", "write", "list", "delete", "search"], ["operation"])
  }

  /** A tool as constructed: its name, description and creation time. */
  datatype Tool = Tool(kind: ToolKind, name: string, description: string, createdAt: string)

  datatype ManifestEntry = ManifestEntry(
    name: string, description: string, version: string, schema: Schema, createdAt: string)

  /** The manifest entry a tool publishes: its own fields, version and schema. */
  function ToMcpManifest(t: Tool): (m: ManifestEntry)
    ensures m.name == t.name && m.description == t.description
    ensures m.version == ToolVersion && m.schema == SchemaOf(t.kind)
    ensures m.createdAt == t.createdAt
  {
    ManifestEntry(t.name, t.description, ToolVersion, SchemaOf(t.kind), t.createdAt)
  }

  datatype Resource = Resource(uri: string, name: string, description: string)

  /** The manifest keeps only a resource's name and description. */
  datatype ResourceEntry = ResourceEntry(name: string, description: string)

  datatype Manifest = Manifest(
    name: string, version: string, protocolVersion: string,
    tools: map<string, ManifestEntry>, resources: map<string, ResourceEntry>)

  // ---------------------------------------------------------------------
  // The workspace file tool
  // ---------------------------------------------------------------------

  /** Keyword arguments of a file-tool call; "" stands for a missing argument. */
  datatype Request = Request(operation: string, path: string, content: string, query: string)

  datatype SearchHit = SearchHit(file: string, matches: nat)

  datatype ToolResult =
    | Listed(files: seq<string>)
    | FileContent(content: string, size: nat)
    | Written(message: string)
    | SearchResults(results: seq<SearchHit>)
    | Failure(error: string)
    | DatabaseReply(succeeded: bool)

  /** The `success` flag of a tool reply. */
  predicate Succeeded(r: ToolResult)
  {
    match r
    case Failure(_) => false
    case DatabaseReply(ok) => ok
    case _ => true
  }

  /** Workspace contents and the order in which a directory listing yields them. */
  datatype Disk = Disk(files: map<string, string>, names: seq<string>)

  ghost predicate WellFormed(d: Disk)
  {
    Distinct(d.names) && Elements(d.names) == d.files.Keys
  }

  datatype Outcome = Outcome(result: ToolResult, disk: Disk)

  /** The search entry for one listed name: present iff the query occurs, ignoring case. */
  function HitFor(name: string, files: map<string, string>, query: string): seq<SearchHit>
    requires |query| > 0
  {
    if name in files && Contains(Lower(files[name]), Lower(query))
    then [SearchHit(name, Count(Lower(files[name]), Lower(query)))]
    else []
  }

  /** Search results over the listed names, in listing order. */
  function SearchHits(names: seq<string>, files: map<string, string>, query: string): seq<SearchHit>
    requires |query| > 0
  {
    if |names| == 0 then []
    else SearchHits(names[..|names| - 1], files, query) + HitFor(names[|names| - 1], files, query)
  }

  /** The reply and the new workspace of one `execute` call. */
  function Run(d: Disk, req: Request): Outcome
  {
    if req.operation == "list" then
      Outcome(Listed(d.names), d)
    else if req.operation == "read" && req.path != "" then
      if req.path in d.files
      then var text := ReadText(d.files[req.path]); Outcome(FileContent(text, |text|), d)
      else Outcome(Failure("File " + req.path + " not found"), d)
    else if req.operation == "write" && req.path != "" && req.content != "" then
      var names := if req.path in d.files then d.names else d.names + [req.path];
      Outcome(Written("File " + req.path + " written successfully"),
              Disk(d.files[req.path := req.content], names))
    else if req.operation == "search" && req.query != "" then
      Outcome(SearchResults(SearchHits(d.names, ReadTexts(d.files), req.query)), d)
    else
      Outcome(Failure(InvalidRequest), d)
  }

  /** No sample before index k has the same name. */
  predicate FirstName(samples: seq<(string, string)>, k: nat)
    requires k < |samples|
  {
    forall j :: 0 <= j < k ==> samples[j].0 != samples[k].0
  }

  /**
   * After the first `i` samples: the files that existed are unchanged, the
   * names are those plus the samples', and a sample file that did not exist
   * holds the content of the first sample with its name.
   */
  ghost predicate SamplesWritten(start: map<string, string>, files: map<string, string>, samples: seq<(string, string)>, i: nat)
    requires i <= |samples|
  {
    && (forall f :: f in start ==> f in files && files[f] == start[f])
    && files.Keys == start.Keys + (set k | 0 <= k < i :: samples[k].0)
    && (forall k :: 0 <= k < i && samples[k].0 !in start && FirstName(samples, k) ==> files[samples[k].0] == samples[k].1)
  }

  /** Writing `name` only when it is missing keeps every existing file and adds `name` to the names. */
  lemma WriteMissing(start: map<string, string>, before: map<string, string>, after: map<string, string>,
                     seen: set<string>, name: string, content: string)
    requires forall f :: f in start ==> f in before && before[f] == start[f]
    requires before.Keys == start.Keys + seen
    requires after == if name in before then before else before[name := content]
    ensures forall f :: f in start ==> f in after && after[f] == start[f]
    ensures after.Keys == start.Keys + (seen + {name})
  {
    if name !in before {
      forall f | f in start
        ensures f in after && after[f] == start[f]
      {
        assert f != name;
      }
    }
  }

  /** The content clause of `SamplesWritten` survives writing sample `i`. */
  lemma SampleContent(start: map<string, string>, before: map<string, string>, after: map<string, string>,
                      samples: seq<(string, string)>, i: nat)
    requires i < |samples|
    requires forall k :: 0 <= k < i ==> samples[k].0 in before
    requires forall k :: 0 <= k < i && samples[k].0 !in start && FirstName(samples, k) ==> before[samples[k].0] == samples[k].1
    requires forall f :: f in before && f !in start ==> exists k :: 0 <= k < i && samples[k].0 == f
    requires after == if samples[i].0 in before then before else before[samples[i].0 := samples[i].1]
    ensures forall k :: 0 <= k < i + 1 && samples[k].0 !in start && FirstName(samples, k) ==> after[samples[k].0] == samples[k].1
  {
    var name := samples[i].0;
    if name in before && name !in start {
      var j :| 0 <= j < i && samples[j].0 == name;
      assert !FirstName(samples, i);
    }
  }

  /** Writing the next sample when its file is missing keeps `SamplesWritten`. */
  lemma SampleStep(start: map<string, string>, before: map<string, string>, after: map<string, string>,
                   samples: seq<(string, string)>, i: nat)
    requires i < |samples| && SamplesWritten(start, before, samples, i)
    requires after == if samples[i].0 in before then before else before[samples[i].0 := samples[i].1]
    ensures SamplesWritten(start, after, samples, i + 1)
  {
    var seen := set k | 0 <= k < i :: samples[k].0;
    assert (set k | 0 <= k < i + 1 :: samples[k].0) == seen + {samples[i].0};
    WriteMissing(start, before, after, seen, samples[i].0, samples[i].1);
    forall k | 0 <= k < i
      ensures samples[k].0 in before
    {
      assert samples[k].0 in seen;
    }
    forall f | f in before && f !in start
      ensures exists k :: 0 <= k < i && samples[k].0 == f
    {
      assert f in seen;
    }
    SampleContent(start, before, after, samples, i);
  }

  class Workspace {
    var files: map<string, string>
    var names: seq<string>

    ghost predicate Valid()
      reads this
    {
      WellFormed(Disk(files, names))
    }

    constructor()
      ensures Valid() && files == map[] && names == []
    {
      files := map[];
      names := [];
    }

    /** Writes each sample file that does not exist yet. */
    method CreateSampleFiles(samples: seq<(string, string)>)
      requires Valid()
      modifies this
      ensures Valid()
      ensures forall f :: f in old(files) ==> f in files && files[f] == old(files)[f]
      ensures files.Keys == old(files).Keys + set k | 0 <= k < |samples| :: samples[k].0
      ensures forall k :: 0 <= k < |samples| && samples[k].0 !in old(files) && FirstName(samples, k) ==>
        files[samples[k].0] == samples[k].1
    {
      var i := 0;
      while i < |samples|
        invariant 0 <= i <= |samples|
        invariant Valid()
        invariant SamplesWritten(old(files), files, samples, i)
      {
        var (name, content) := samples[i];
        ghost var before := files;
        if name !in files {
          DistinctAppend(names, name);
          files := files[name := content];
          names := names + [name];
        }
        SampleStep(old(files), before, files, samples, i);
        i := i + 1;
      }
    }

    /** One file-tool call against the workspace. */
    method Execute(req: Request) returns (r: ToolResult)
      requires Valid()
      modifies this
      ensures Valid()
      ensures Outcome(r, Disk(files, names)) == Run(Disk(old(files), old(names)), req)
    {
      if req.operation == "list" {
        r := Listed(names);
      } else if req.operation == "read" && req.path != "" {
        if req.path in files {
          var text := ReadText(files[req.path]);
          r := FileContent(text, |text|);
        } else {
          r := Failure("File " + req.path + " not found");
        }
      } else if req.operation == "write" && req.path != "" && req.content != "" {
        if req.path !in files {
          DistinctAppend(names, req.path);
          names := names + [req.path];
        }
        files := files[req.path := req.content];
        r := Written("File " + req.path + " written successfully");
      } else if req.operation == "search" && req.query != "" {
        var results: seq<SearchHit> := [];
        var i := 0;
        while i < |names|
          invariant 0 <= i <= |names|
          invariant results == SearchHits(names[..i], ReadTexts(files), req.query)
        {
          assert names[..i + 1][..i] == names[..i];
          var name := names[i];
          if name in files {
            var text := Lower(ReadText(files[name]));
            if Contains(text, Lower(req.query)) {
              results := results + [SearchHit(name, Count(text, Lower(req.query)))];
            }
          }
          i := i + 1;
        }
        assert names[..|names|] == names;
        r := SearchResults(results);
      } else {
        r := Failure(InvalidRequest);
      }
    }
  }

  /**
   * Writing non-empty content to a non-empty path, then reading it, returns
   * that content with its line ends read as '\n'; content without a '\r'
   * comes back exactly.
   */
  lemma WriteThenRead(d: Disk, path: string, content: string)
    requires WellFormed(d) && path != "" && content != ""
    ensures var w := Run(d, Request("write", path, content, ""));
      && w.result == Written("File " + path + " written successfully")
      && WellFormed(w.disk)
      && Run(w.disk, Request("read", path, "", "")).result == FileContent(ReadText(content), |ReadText(content)|)
      && ('\r' !in content ==> Run(w.disk, Request("read", path, "", "")).result == FileContent(content, |content|))
  {
    var w := Run(d, Request("write", path, content, ""));
    if '\r' !in content {
      ReadTextPlain(content);
    }
    if path !in d.files {
      DistinctAppend(d.names, path);
      assert Elements(d.names + [path]) == Elements(d.names) + {path};
    }
  }

  /** A written "\r\n" line end reads back as one '\n', so the reported size drops by one. */
  lemma WriteCrLfThenRead(d: Disk, path: string, a: string, b: string)
    requires WellFormed(d) && path != "" && '\r' !in a && '\r' !in b
    ensures var w := Run(d, Request("write", path, a + "\r\n" + b, ""));
      Run(w.disk, Request("read", path, "", "")).result == FileContent(a + "\n" + b, |a| + |b| + 1)
  {
    WriteThenRead(d, path, a + "\r\n" + b);
    CrLfReadsAsLf(a, b);
  }

  /**
   * A write without path or content, "delete" (which the schema advertises)
   * and any unknown operation are rejected without touching the workspace.
   */
  lemma RejectedRequests(d: Disk, req: Request)
    requires || (req.operation == "write" && (req.path == "" || req.content == ""))
             || req.operation == "delete"
             || req.operation !in ["list", "read", "write", "search"]
    ensures Run(d, req) == Outcome(Failure(InvalidRequest), d)
    ensures req.operation == "delete" ==> "delete" in SchemaOf(FileSystem).operations
  {
  }

  /** Reads, lists and searches never change the workspace. */
  lemma ReadOnlyOperations(d: Disk, req: Request)
    requires req.operation != "write"
    ensures Run(d, req).disk == d
  {
  }

  /**
   * Search reports a listed file iff its lowercased content contains the
   * lowercased query, each file once, with the non-overlapping occurrence
   * count, which is at least 1.
   */
  lemma SearchHitsExact(names: seq<string>, files: map<string, string>, query: string)
    requires |query| > 0 && Distinct(names)
    ensures forall k :: 0 <= k < |SearchHits(names, files, query)| ==>
      HitOk(SearchHits(names, files, query)[k], names, files, query)
    ensures forall n :: n in names && n in files && Contains(Lower(files[n]), Lower(query)) ==>
      exists k :: 0 <= k < |SearchHits(names, files, query)| && SearchHits(names, files, query)[k].file == n
    ensures forall i, j :: 0 <= i < j < |SearchHits(names, files, query)| ==>
      SearchHits(names, files, query)[i].file != SearchHits(names, files, query)[j].file
  {
    var hits := SearchHits(names, files, query);
    SearchHitsShape(names, files, query);
    forall k | 0 <= k < |hits|
      ensures HitOk(hits[k], names, files, query)
    {
      assert HitFor(hits[k].file, files, query) == [hits[k]];
    }
    forall n | n in names && n in files && Contains(Lower(files[n]), Lower(query))
      ensures exists k :: 0 <= k < |hits| && hits[k].file == n
    {
      assert HitFor(n, files, query) != [];
    }
  }

  /** Each hit is the entry `HitFor` gives its file, and every file with an entry has one hit. */
  lemma {:induction false} SearchHitsShape(names: seq<string>, files: map<string, string>, query: string)
    requires |query| > 0 && Distinct(names)
    ensures forall k :: 0 <= k < |SearchHits(names, files, query)| ==>
      SearchHits(names, files, query)[k].file in names
      && HitFor(SearchHits(names, files, query)[k].file, files, query) == [SearchHits(names, files, query)[k]]
    ensures forall n :: n in names && HitFor(n, files, query) != [] ==>
      exists k :: 0 <= k < |SearchHits(names, files, query)| && SearchHits(names, files, query)[k].file == n
    ensures forall i, j :: 0 <= i < j < |SearchHits(names, files, query)| ==>
      SearchHits(names, files, query)[i].file != SearchHits(names, files, query)[j].file
  {
    if |names| > 0 {
      var init := names[..|names| - 1];
      var last := names[|names| - 1];
      assert Distinct(init);
      SearchHitsShape(init, files, query);
      var hits := SearchHits(names, files, query);
      var prev := SearchHits(init, files, query);
      var h := HitFor(last, files, query);
      assert hits == prev + h;
      assert names == init + [last];
      assert last !in init;
      assert |h| <= 1 && (|h| == 1 ==> h[0].file == last);
      forall k | 0 <= k < |hits|
        ensures hits[k].file in names && HitFor(hits[k].file, files, query) == [hits[k]]
      {
        if k < |prev| {
          assert hits[k] == prev[k];
        } else {
          assert hits[k] == h[k - |prev|];
        }
      }
      forall n | n in names && HitFor(n, files, query) != []
        ensures exists k :: 0 <= k < |hits| && hits[k].file == n
      {
        if n == last {
          assert hits[|hits| - 1].file == n;
        } else {
          assert n in init;
          var k :| 0 <= k < |prev| && prev[k].file == n;
          assert hits[k] == prev[k];
        }
      }
      forall i, j | 0 <= i < j < |hits|
        ensures hits[i].file != hits[j].file
      {
        if j >= |prev| {
          assert hits[i] == prev[i];
          assert prev[i].file in init;
        } else {
          assert hits[i] == prev[i] && hits[j] == prev[j];
        }
      }
    }
  }

  /** One search entry: a listed file whose content holds the query, with its count. */
  predicate HitOk(h: SearchHit, names: seq<string>, files: map<string, string>, query: string)
    requires |query| > 0
  {
    && h.file in names && h.file in files
    && Contains(Lower(files[h.file]), Lower(query))
    && h.matches == Count(Lower(files[h.file]), Lower(query)) >= 1
  }

  // ---------------------------------------------------------------------
  // The server
  // ---------------------------------------------------------------------

  // ---------------------------------------------------------------------
  // Binding the decoded parameters to `execute`
  // ---------------------------------------------------------------------

  /** The error text of an exception `execute` catches and reports. */
  const CaughtTypeError := "TypeError"

  /** The text of a decoded argument: a string itself, anything else as a missing one. */
  function ArgText(v: Json): string
  {
    if v.JStr? then v.s else ""
  }

  /** An argument `execute` treats as text: a string, or a value that is falsy like a missing one. */
  predicate TextLike(v: Json)
  {
    v.JStr? || !Truthy(v)
  }

  /**
   * The file tool's `execute` on the values as decoded. A non-string path
   * or content fails inside the `try` and comes back as an error; a
   * non-string search query fails on every file inside the per-file `try`,
   * which skips them all.
   */
  function CallFile(d: Disk, operation: Json, path: Json, content: Json, query: Json): (o: Outcome)
    ensures TextLike(operation) && TextLike(path) && TextLike(content) && TextLike(query) ==>
      o == Run(d, Request(ArgText(operation), ArgText(path), ArgText(content), ArgText(query)))
    ensures o.disk != d ==> operation == JStr("write") && path.JStr? && content.JStr?
    ensures operation == JStr("search") && Truthy(query) && !query.JStr? ==> o == Outcome(SearchResults([]), d)
  {
    if operation == JStr("list") then Run(d, Request("list", "", "", ""))
    else if operation == JStr("read") && Truthy(path) then
      if path.JStr? then Run(d, Request("read", path.s, "", ""))
      else Outcome(Failure(CaughtTypeError), d)
    else if operation == JStr("write") && Truthy(path) && Truthy(content) then
      if path.JStr? && content.JStr? then Run(d, Request("write", path.s, content.s, ""))
      else Outcome(Failure(CaughtTypeError), d)
    else if operation == JStr("search") && Truthy(query) then
      if query.JStr? then Run(d, Request("search", "", "", query.s))
      else Outcome(SearchResults([]), d)
    else Outcome(Failure(InvalidRequest), d)
  }

  /** A keyword argument as decoded; `JNull` for one not given, as the `None` default. */
  function Param(args: map<string, Json>, key: string): Json
  {
    if key in args then args[key] else JNull
  }

  /**
   * Binds `**parameters` to `execute(operation, path=None, content=None,
   * query=None)`: `operation` is required and no other key is accepted,
   * otherwise the call raises `TypeError` before `execute` runs.
   */
  function BindRequest(args: map<string, Json>): (r: Option<(Json, Json, Json, Json)>)
    ensures r.Some? <==> "operation" in args && args.Keys <= {"operation", "path", "content", "query"}
    ensures r.Some? ==> r.value == (args["operation"], Param(args, "path"), Param(args, "content"), Param(args, "query"))
  {
    if "operation" !in args || !(args.Keys <= {"operation", "path", "content", "query"}) then None
    else Some((args["operation"], Param(args, "path"), Param(args, "content"), Param(args, "query")))
  }

  /**
   * Keyword arguments a bound method `m(self, tool_name, **kwargs)` can
   * take: a `self` or `tool_name` key clashes with a named parameter, and
   * the call raises `TypeError` before its body runs.
   */
  predicate BindsCall(args: map<string, Json>)
  {
    "self" !in args && "tool_name" !in args
  }

  /** Binds `**parameters` to the database tool's `execute(operation, sql, params=None)`. */
  predicate BindsDatabase(args: map<string, Json>)
  {
    "operation" in args && "sql" in args && args.Keys <= {"operation", "sql", "params"}
  }

  class Server {
    const name: string
    const version: string
    var tools: map<string, Tool>
    /** Registration order of tool names, as a Python dict keeps its keys. */
    var toolOrder: seq<string>
    var resources: map<string, Resource>
    var manifestTools: map<string, ManifestEntry>
    var manifestResources: map<string, ResourceEntry>

    /** Tools and manifest agree key by key; resources likewise. */
    ghost predicate Valid()
      reads this
    {
      && tools.Keys == manifestTools.Keys
      && (forall n :: n in tools ==> tools[n].name == n && manifestTools[n] == ToMcpManifest(tools[n]))
      && resources.Keys == manifestResources.Keys
      && (forall u :: u in resources ==>
            resources[u].uri == u
            && manifestResources[u] == ResourceEntry(resources[u].name, resources[u].description))
      && Distinct(toolOrder) && Elements(toolOrder) == tools.Keys
    }

    constructor(name: string, version: string)
      ensures Valid()
      ensures this.name == name && this.version == version
      ensures tools == map[] && resources == map[] && toolOrder == []
    {
      this.name := name;
      this.version := version;
      tools := map[];
      toolOrder := [];
      resources := map[];
      manifestTools := map[];
      manifestResources := map[];
    }

    /** Keys the tool by its name, replacing any tool of the same name. */
    method RegisterTool(t: Tool)
      requires Valid()
      modifies this
      ensures Valid()
      ensures tools == old(tools)[t.name := t]
      ensures manifestTools == old(manifestTools)[t.name := ToMcpManifest(t)]
      ensures t.name in old(tools) ==> toolOrder == old(toolOrder)
      ensures t.name !in old(tools) ==> toolOrder == old(toolOrder) + [t.name]
      ensures resources == old(resources) && manifestResources == old(manifestResources)
    {
      if t.name !in tools {
        DistinctAppend(toolOrder, t.name);
        toolOrder := toolOrder + [t.name];
      }
      tools := tools[t.name := t];
      manifestTools := manifestTools[t.name := ToMcpManifest(t)];
    }

    /** Keys the resource by its URI; the manifest records name and description only. */
    method RegisterResource(r: Resource)
      requires Valid()
      modifies this
      ensures Valid()
      ensures resources == old(resources)[r.uri := r]
      ensures manifestResources == old(manifestResources)[r.uri := ResourceEntry(r.name, r.description)]
      ensures tools == old(tools) && toolOrder == old(toolOrder) && manifestTools == old(manifestTools)
    {
      resources := resources[r.uri := r];
      manifestResources := manifestResources[r.uri := ResourceEntry(r.name, r.description)];
    }

    /**
     * Runs the named tool. An unknown name gets the not-found error and
     * runs nothing; the database tool's reply is the given `dbReply`.
     */
    method CallTool(toolName: string, req: Request, ws: Workspace, dbReply: ToolResult) returns (r: ToolResult)
      requires Valid() && ws.Valid()
      modifies ws
      ensures ws.Valid()
      ensures toolName !in tools ==>
        r == Failure("Tool " + toolName + " not found") && unchanged(ws)
      ensures toolName in tools && tools[toolName].kind == DatabaseOperations ==>
        r == dbReply && unchanged(ws)
      ensures toolName in tools && tools[toolName].kind == FileSystem ==>
        Outcome(r, Disk(ws.files, ws.names)) == Run(Disk(old(ws.files), old(ws.names)), req)
    {
      if toolName !in tools {
        r := Failure("Tool " + toolName + " not found");
      } else if tools[toolName].kind == DatabaseOperations {
        r := dbReply;
      } else {
        r := ws.Execute(req);
      }
    }

    /**
     * `call_tool(tool_name, **parameters)` with the parameters the agent
     * decoded. `None` is a call that raises `TypeError` while binding its
     * keywords — a `self` or `tool_name` key clashes with `call_tool`'s own
     * parameters, and the chosen tool's `execute` rejects a missing or
     * unknown keyword —
     * which `process_request` answers with "❌ Error processing request".
     */
    method CallWithParameters(toolName: string, args: map<string, Json>, ws: Workspace, dbReply: ToolResult)
      returns (r: Option<ToolResult>)
      requires Valid() && ws.Valid()
      modifies ws
      ensures ws.Valid()
      ensures !BindsCall(args) ==> r == None && unchanged(ws)
      ensures BindsCall(args) && toolName !in tools ==>
        r == Some(Failure("Tool " + toolName + " not found")) && unchanged(ws)
      ensures BindsCall(args) && toolName in tools && tools[toolName].kind == DatabaseOperations ==>
        r == (if BindsDatabase(args) then Some(dbReply) else None) && unchanged(ws)
      ensures BindsCall(args) && toolName in tools && tools[toolName].kind == FileSystem ==>
        match BindRequest(args)
        case None => r == None && unchanged(ws)
        case Some(a) =>
          r.Some? && Outcome(r.value, Disk(ws.files, ws.names)) == CallFile(Disk(old(ws.files), old(ws.names)), a.0, a.1, a.2, a.3)
    {
      if !BindsCall(args) {
        r := None;
      } else if toolName !in tools {
        r := Some(Failure("Tool " + toolName + " not found"));
      } else if tools[toolName].kind == DatabaseOperations {
        r := if BindsDatabase(args) then Some(dbReply) else None;
      } else {
        match BindRequest(args)
        case None =>
          r := None;
        case Some(a) =>
          var x: ToolResult;
          if a.0 == JStr("list") {
            x := ws.Execute(Request("list", "", "", ""));
          } else if a.0 == JStr("read") && Truthy(a.1) {
            if a.1.JStr? {
              x := ws.Execute(Request("read", a.1.s, "", ""));
            } else {
              x := Failure(CaughtTypeError);
            }
          } else if a.0 == JStr("write") && Truthy(a.1) && Truthy(a.2) {
            if a.1.JStr? && a.2.JStr? {
              x := ws.Execute(Request("write", a.1.s, a.2.s, ""));
            } else {
              x := Failure(CaughtTypeError);
            }
          } else if a.0 == JStr("search") && Truthy(a.3) {
            if a.3.JStr? {
              x := ws.Execute(Request("search", "", "", a.3.s));
            } else {
              x := SearchResults([]);
            }
          } else {
            x := Failure(InvalidRequest);
          }
          r := Some(x);
      }
    }

    function GetManifest(): (m: Manifest)
      reads this
      requires Valid()
      ensures m.tools.Keys == tools.Keys && m.resources.Keys == resources.Keys
      ensures m.protocolVersion == ProtocolVersion && m.name == name && m.version == version
    {
      Manifest(name, version, ProtocolVersion, manifestTools, manifestResources)
    }

    /** Every registered name, each once, in registration order. */
    method ListTools() returns (names: seq<string>)
      requires Valid()
      ensures Distinct(names) && |names| == |tools|
      ensures forall n :: n in names <==> n in tools
      ensures names == toolOrder
    {
      names := toolOrder;
      DistinctLength(names);
    }
  }

  // ---------------------------------------------------------------------
  // Interpreting the model's reply
  // ---------------------------------------------------------------------

  /**
   * The text handed to the JSON decoder: the trimmed reply, or the part
   * between "```json" and the next fence, or the part between the first two
   * fences.
   */
  function StripFences(reply: string): string
  {
    FenceBody(Strip(reply))
  }

  function FenceBody(clean: string): string
  {
    if Contains(clean, "```json") then Strip(Split(Split(clean, "```json")[1], "```")[0])
    else if Contains(clean, "```") then Strip(Split(clean, "```")[1])
    else clean
  }

  /** How `process_request` proceeds after decoding the reply. */
  datatype AgentStep =
    | ParseFailed                          // "❌ Failed to parse LLM response as JSON"
    | NoToolChosen                         // "❌ LLM did not specify a tool to use"
    | ProcessingError                      // "❌ Error processing request"
    | NameNotRegistered                    // a non-text, hashable tool name, which no tool key can equal
    | CallChosenTool(toolName: string, parameters: map<string, Json>, reasoning: Json)

  /** `decode` stands for `json.loads`: `None` when the text is not JSON. */
  function InterpretReply(reply: string, decode: string -> Option<Json>): AgentStep
  {
    match decode(StripFences(reply))
    case None => ParseFailed
    case Some(JObj(fields)) => InterpretObject(fields)
    case Some(_) => ProcessingError
  }

  /** The decoded object's `tool_name`, `parameters` and `reasoning`. */
  function InterpretObject(fields: map<string, Json>): AgentStep
  {
    var toolName := Get(fields, "tool_name", JNull);
    var parameters := Get(fields, "parameters", JObj(map[]));
    var reasoning := Get(fields, "reasoning", JStr("No reasoning provided"));
    if !Truthy(toolName) then NoToolChosen
    else if !parameters.JObj? || !BindsCall(parameters.fields) then ProcessingError
    else if toolName.JStr? then CallChosenTool(toolName.s, parameters.fields, reasoning)
    else if toolName.JArr? || toolName.JObj? then ProcessingError
    else NameNotRegistered
  }

  /** A decoded object without a truthy tool_name never leads to a tool call. */
  lemma NoToolNameNoCall(reply: string, decode: string -> Option<Json>, fields: map<string, Json>)
    requires decode(StripFences(reply)) == Some(JObj(fields))
    requires "tool_name" !in fields || !Truthy(fields["tool_name"])
    ensures InterpretReply(reply, decode) == NoToolChosen
  {
  }

  /**
   * Parameters holding a `self` or `tool_name` key make `call_tool` raise
   * while binding them, whatever the name: the reply is the processing error.
   */
  lemma ClashingParametersFail(reply: string, decode: string -> Option<Json>, fields: map<string, Json>)
    requires decode(StripFences(reply)) == Some(JObj(fields))
    requires "tool_name" in fields && Truthy(fields["tool_name"])
    requires "parameters" in fields && fields["parameters"].JObj? && !BindsCall(fields["parameters"].fields)
    ensures InterpretReply(reply, decode) == ProcessingError
  {
  }

  /**
   * A tool is called exactly when the decoded object names one by a
   * non-empty string, and its parameters, if present, are an object that
   * `call_tool` can take as keywords.
   */
  lemma CallIffToolNamed(reply: string, decode: string -> Option<Json>)
    ensures InterpretReply(reply, decode).CallChosenTool? <==>
      (exists fields: map<string, Json>, name: string :: decode(StripFences(reply)) == Some(JObj(fields))
         && "tool_name" in fields && fields["tool_name"] == JStr(name) && name != ""
         && ("parameters" !in fields || (fields["parameters"].JObj? && BindsCall(fields["parameters"].fields))))
  {
    match decode(StripFences(reply))
    case Some(JObj(fields)) =>
      ObjectCallIffNamed(fields);
      if InterpretObject(fields).CallChosenTool? {
        assert fields["tool_name"] == JStr(fields["tool_name"].s);
      }
    case _ =>
  }

  lemma ObjectCallIffNamed(fields: map<string, Json>)
    ensures InterpretObject(fields).CallChosenTool? <==>
      && "tool_name" in fields && fields["tool_name"].JStr? && fields["tool_name"].s != ""
      && ("parameters" !in fields || (fields["parameters"].JObj? && BindsCall(fields["parameters"].fields)))
  {
  }

  /** Trimming a reply that holds a fenced block only trims its edges. */
  lemma TrimFenced(pre: string, core: string, post: string) returns (l: string, r: string)
    requires |core| > 0 && core[0] == '`' && core[|core| - 1] == '`'
    ensures Strip(pre + core + post) == l + core + r
    ensures |l| <= |pre| && l == pre[|pre| - |l|..]
    ensures |r| <= |post| && r == post[..|r|]
  {
    StripAround(pre, core, post);
    l, r := StripLeft(pre), StripRight(post);
  }

  lemma NoBacktickIn(s: string, i: nat, j: nat)
    requires '`' !in s && i <= j <= |s|
    ensures '`' !in s[i..j]
  {
    forall k | 0 <= k < j - i
      ensures s[i..j][k] != '`'
    {
      assert s[i..j][k] == s[i + k];
      assert s[i + k] in s;
    }
  }

  /** The part after "```json" and before the next fence is `body`. */
  lemma JsonSegment(l: string, body: string, r: string)
    requires '`' !in l && '`' !in body && '`' !in r
    ensures |Split(l + "```json" + body + "```" + r, "```json")| > 1
    ensures Split(Split(l + "```json" + body + "```" + r, "```json")[1], "```")[0] == body
  {
    var open := "```json";
    assert open[0] == '`';
    var rest := body + "```" + r;
    assert l + open + body + "```" + r == l + open + rest;
    SplitAfterFirst(l, open, rest);
    JsonTail(body, r);
  }

  lemma JsonTail(body: string, r: string)
    requires '`' !in body && '`' !in r
    ensures Split(Split(body + "```" + r, "```json")[0], "```")[0] == body
  {
    var rest := body + "```" + r;
    var f := Find(rest, "```json");
    if f.Some? {
      FenceJsonAt(body, r, f.value);
      assert Split(rest, "```json")[0] == rest[..|body|] == body;
      SplitNone(body, "```", 0);
    } else {
      assert Split(rest, "```json")[0] == rest;
      SplitAfter(body, "```", r, 0);
    }
  }

  /** Only the text between "```json" and the next fence reaches the decoder. */
  lemma JsonFenceBody(pre: string, body: string, post: string)
    requires '`' !in pre && '`' !in body && '`' !in post
    ensures StripFences(pre + "```json" + body + "```" + post) == Strip(body)
  {
    var core := "```json" + body + "```";
    Frame5(pre, "```json", body, "```", post);
    var l, r := TrimFenced(pre, core, post);
    TrimmedPlain(pre, post, l, r);
    Frame5(l, "```json", body, "```", r);
    JsonFenceClean(l, body, r);
  }

  lemma JsonFenceClean(l: string, body: string, r: string)
    requires '`' !in l && '`' !in body && '`' !in r
    ensures FenceBody(l + "```json" + body + "```" + r) == Strip(body)
  {
    assert l + "```json" + body + "```" + r == l + "```json" + (body + "```" + r);
    FindAfter(l, "```json", body + "```" + r, 0);
    JsonSegment(l, body, r);
  }

  lemma Frame5<T>(a: seq<T>, b: seq<T>, c: seq<T>, d: seq<T>, e: seq<T>)
    ensures a + b + c + d + e == a + (b + c + d) + e
  {
  }

  /** The only place "```json" can start in `body + "```" + r` is right after `body`. */
  lemma FenceJsonAt(body: string, r: string, i: nat)
    requires '`' !in body && '`' !in r
    requires Find(body + "```" + r, "```json") == Some(i)
    ensures i == |body|
  {
    var s := body + "```" + r;
    var w := s[i..i + 7];
    assert w == "```json";
    assert w[0] == s[i] && w[1] == s[i + 1] && w[2] == s[i + 2] && w[3] == s[i + 3];
    assert forall m :: 0 <= m < |body| ==> s[m] == body[m];
    assert forall m :: |body| + 3 <= m < |s| ==> s[m] == r[m - |body| - 3];
  }

  /** The part between the first two plain fences is `body`. */
  lemma PlainSegment(l: string, body: string, r: string)
    requires '`' !in l && '`' !in body && '`' !in r
    ensures |Split(l + "```" + body + "```" + r, "```")| > 1
    ensures Split(l + "```" + body + "```" + r, "```")[1] == body
  {
    var fence := "```";
    assert fence[0] == '`';
    var rest := body + fence + r;
    assert l + fence + body + fence + r == l + fence + rest;
    SplitAfterFirst(l, fence, rest);
    SplitAfterFirst(body, fence, r);
  }

  /** With plain fences, the text between the first two reaches the decoder. */
  lemma PlainFenceBody(pre: string, body: string, post: string)
    requires '`' !in pre && '`' !in body && '`' !in post
    requires !Contains(pre + "```" + body + "```" + post, "```json")
    ensures StripFences(pre + "```" + body + "```" + post) == Strip(body)
  {
    var core := "```" + body + "```";
    Frame5(pre, "```", body, "```", post);
    var l, r := TrimFenced(pre, core, post);
    TrimmedEdges(pre, core, post, l, r);
    Frame5(l, "```", body, "```", r);
    PlainFenceClean(l, body, r);
  }

  /** The trimmed edges are pieces of the untrimmed ones, so they hold no backtick either. */
  lemma TrimmedPlain(pre: string, post: string, l: string, r: string)
    requires '`' !in pre && '`' !in post
    requires |l| <= |pre| && l == pre[|pre| - |l|..]
    requires |r| <= |post| && r == post[..|r|]
    ensures '`' !in l && '`' !in r
  {
    NoBacktickIn(pre, |pre| - |l|, |pre|);
    assert pre[|pre| - |l|..|pre|] == l;
    NoBacktickIn(post, 0, |r|);
  }

  lemma TrimmedEdges(pre: string, core: string, post: string, l: string, r: string)
    requires '`' !in pre && '`' !in post && !Contains(pre + core + post, "```json")
    requires |l| <= |pre| && l == pre[|pre| - |l|..]
    requires |r| <= |post| && r == post[..|r|]
    ensures '`' !in l && '`' !in r && !Contains(l + core + r, "```json")
  {
    TrimmedPlain(pre, post, l, r);
    var a, b := pre[..|pre| - |l|], post[|r|..];
    assert pre == a + l && post == r + b;
    assert pre + core + post == a + (l + core + r) + b;
    ContainsInside(a, l + core + r, b, "```json");
  }

  lemma ContainsInside(a: string, m: string, b: string, p: string)
    ensures Contains(m, p) ==> Contains(a + m + b, p)
  {
    if Contains(m, p) {
      ContainsPrefix(m, b, p);
      ContainsPrefix(m + b, a, p);
      assert a + (m + b) == a + m + b;
    }
  }

  lemma PlainFenceClean(l: string, body: string, r: string)
    requires '`' !in l && '`' !in body && '`' !in r
    requires !Contains(l + "```" + body + "```" + r, "```json")
    ensures FenceBody(l + "```" + body + "```" + r) == Strip(body)
  {
    assert l + "```" + body + "```" + r == l + "```" + (body + "```" + r);
    FindAfter(l, "```", body + "```" + r, 0);
    PlainSegment(l, body, r);
  }

  /** Without fences the trimmed reply is decoded as a whole. */
  lemma NoFenceWholeReply(reply: string)
    requires '`' !in reply
    ensures StripFences(reply) == Strip(reply)
  {
    var clean := Strip(reply);
    assert '`' !in clean by {
      assert StripLeft(reply) == reply[|reply| - |StripLeft(reply)|..];
      assert clean == StripLeft(reply)[..|clean|];
    }
    AbsentChar(clean, "```json", 0);
    AbsentChar(clean, "```", 0);
  }
}
