/**
 * The FastMCP project server's workspace tools: reading and listing files,
 * a case-insensitive search that reports matching lines per file (capped at
 * five), and the task-progress figures of the project-status tool.
 */
module FastMcp {
  import opened Text
  import opened Values
  import McpTemplate

  /** Matches returned per file. */
  const MatchCap: nat := 5

  // ---------------------------------------------------------------------
  // read_file and list_files
  // ---------------------------------------------------------------------

  datatype ReadReply =
    | ReadOk(filename: string, size: nat, content: string)
    | NotFound(filename: string)          // "File not found"
    | ReadError(filename: string)         // reading raised

  /**
   * `read_file`. The empty name denotes the workspace directory itself, which
   * exists but cannot be read as text. The content and its size are those of
   * the text as read, with line ends turned into '\n'.
   */
  function ReadFile(d: McpTemplate.Disk, filename: string): (r: ReadReply)
    ensures r.filename == filename
    ensures r.ReadOk? <==> filename != "" && filename in d.files
    ensures r.ReadOk? ==> r.content == ReadText(d.files[filename]) && r.size == |r.content|
    ensures r.NotFound? <==> filename != "" && filename !in d.files
  {
    if filename == "" then ReadError(filename)
    else if filename !in d.files then NotFound(filename)
    else var text := ReadText(d.files[filename]); ReadOk(filename, |text|, text)
  }

  /**
   * `setup_workspace`: writes each sample file that does not exist yet, so a
   * restart never overwrites a file already in the workspace.
   */
  method SetupWorkspace(ws: McpTemplate.Workspace, samples: seq<(string, string)>)
    requires ws.Valid()
    modifies ws
    ensures ws.Valid()
    ensures forall f :: f in old(ws.files) ==> f in ws.files && ws.files[f] == old(ws.files)[f]
    ensures forall k :: 0 <= k < |samples| ==> samples[k].0 in ws.files
    ensures ws.files.Keys == old(ws.files).Keys + set k | 0 <= k < |samples| :: samples[k].0
    ensures forall k :: 0 <= k < |samples| && samples[k].0 !in old(ws.files) && McpTemplate.FirstName(samples, k) ==>
      ws.files[samples[k].0] == samples[k].1
  {
    ws.CreateSampleFiles(samples);
    forall k | 0 <= k < |samples|
      ensures samples[k].0 in ws.files
    {
      assert samples[k].0 in set j | 0 <= j < |samples| :: samples[j].0;
    }
  }

  datatype FileEntry = FileEntry(name: string, size: nat)

  /** The bytes UTF-8 takes for one character. */
  function Utf8Width(c: char): nat
  {
    if c as int < 0x80 then 1 else if c as int < 0x800 then 2 else if c as int < 0x1_0000 then 3 else 4
  }

  /** `st_size` of a file written as UTF-8 text: the bytes of its characters. */
  function Utf8Size(s: string): nat
    decreases |s|
  {
    if |s| == 0 then 0 else Utf8Size(s[..|s| - 1]) + Utf8Width(s[|s| - 1])
  }

  /** The byte size is between one and four bytes per character, and equals the length exactly for ASCII text. */
  lemma {:induction false} Utf8SizeBounds(s: string)
    decreases |s|
    ensures |s| <= Utf8Size(s) <= 4 * |s|
    ensures Utf8Size(s) == |s| <==> forall i :: 0 <= i < |s| ==> s[i] as int < 0x80
  {
    if |s| > 0 {
      var init := s[..|s| - 1];
      Utf8SizeBounds(init);
      assert forall i :: 0 <= i < |init| ==> init[i] == s[i];
    }
  }

  datatype Listing = Listing(fileCount: nat, files: seq<FileEntry>)

  /** `list_files`: one entry per workspace file, in listing order, with its size in bytes. */
  method ListFiles(ws: McpTemplate.Workspace) returns (r: Listing)
    requires ws.Valid()
    ensures r.fileCount == |r.files| == |ws.names|
    ensures forall k :: 0 <= k < |r.files| ==>
      ws.names[k] in ws.files && r.files[k] == FileEntry(ws.names[k], Utf8Size(ws.files[ws.names[k]]))
  {
    var files: seq<FileEntry> := [];
    var i := 0;
    while i < |ws.names|
      invariant 0 <= i <= |ws.names|
      invariant |files| == i
      invariant forall k :: 0 <= k < i ==>
        ws.names[k] in ws.files && files[k] == FileEntry(ws.names[k], Utf8Size(ws.files[ws.names[k]]))
    {
      assert ws.names[i] in Elements(ws.names);
      files := files + [FileEntry(ws.names[i], Utf8Size(ws.files[ws.names[i]]))];
      i := i + 1;
    }
    r := Listing(|files|, files);
  }

  // ---------------------------------------------------------------------
  // search_content
  // ---------------------------------------------------------------------

  datatype LineMatch = LineMatch(lineNumber: nat, lineContent: string)

  datatype FileMatches = FileMatches(filename: string, matchCount: nat, matches: seq<LineMatch>)

  datatype SearchReply = SearchReply(query: string, filesSearched: nat, filesWithMatches: nat, results: seq<FileMatches>)

  /** Every line holding the lower-cased query `q`, numbered from 1, stripped. */
  function AllMatches(lines: seq<string>, q: string): seq<LineMatch>
  {
    if |lines| == 0 then []
    else
      AllMatches(lines[..|lines| - 1], q)
      + (if Contains(Lower(lines[|lines| - 1]), q) then [LineMatch(|lines|, Strip(lines[|lines| - 1]))] else [])
  }

  function Min(a: nat, b: nat): nat
  {
    if a <= b then a else b
  }

  /** The entry for one file: present iff the query occurs in its text, ignoring case. */
  function FileResult(name: string, content: string, query: string): seq<FileMatches>
  {
    if Contains(Lower(content), Lower(query)) then
      var all := AllMatches(Split(content, "\n"), Lower(query));
      [FileMatches(name, |all|, all[..Min(MatchCap, |all|)])]
    else []
  }

  /** Search results over the listed names' texts, in listing order. */
  function SearchResults(names: seq<string>, files: map<string, string>, query: string): seq<FileMatches>
  {
    if |names| == 0 then []
    else
      SearchResults(names[..|names| - 1], files, query)
      + (if names[|names| - 1] in files then FileResult(names[|names| - 1], files[names[|names| - 1]], query) else [])
  }

  /** The inner loop of `search_content`: every line holding `lq`, in order. */
  method MatchLines(lines: seq<string>, lq: string) returns (matches: seq<LineMatch>)
    ensures matches == AllMatches(lines, lq)
  {
    matches := [];
    var j := 0;
    while j < |lines|
      invariant 0 <= j <= |lines|
      invariant matches == AllMatches(lines[..j], lq)
    {
      assert lines[..j + 1][..j] == lines[..j];
      if Contains(Lower(lines[j]), lq) {
        matches := matches + [LineMatch(j + 1, Strip(lines[j]))];
      }
      j := j + 1;
    }
    assert lines[..|lines|] == lines;
  }

  /** `search_content`: a loop over the files, and within a matching file a loop over its lines. */
  method SearchContent(ws: McpTemplate.Workspace, query: string) returns (r: SearchReply)
    ensures r.query == query && r.filesSearched == |ws.names|
    ensures r.results == SearchResults(ws.names, ReadTexts(ws.files), query)
    ensures r.filesWithMatches == |r.results|
  {
    var results: seq<FileMatches> := [];
    var lq := Lower(query);
    var i := 0;
    while i < |ws.names|
      invariant 0 <= i <= |ws.names|
      invariant results == SearchResults(ws.names[..i], ReadTexts(ws.files), query)
    {
      assert ws.names[..i + 1][..i] == ws.names[..i];
      var name := ws.names[i];
      if name in ws.files {
        var text := ReadText(ws.files[name]);
        if Contains(Lower(text), lq) {
          var matches := MatchLines(Split(text, "\n"), lq);
          results := results + [FileMatches(name, |matches|, matches[..Min(MatchCap, |matches|)])];
        }
      }
      i := i + 1;
    }
    assert ws.names[..|ws.names|] == ws.names;
    r := SearchReply(query, |ws.names|, |results|, results);
  }

  /** Each match names a matching line, 1-based, with its stripped text. */
  lemma {:induction false} AllMatchesSound(lines: seq<string>, q: string)
    ensures forall k :: 0 <= k < |AllMatches(lines, q)| ==>
      1 <= AllMatches(lines, q)[k].lineNumber <= |lines|
      && Contains(Lower(lines[AllMatches(lines, q)[k].lineNumber - 1]), q)
      && AllMatches(lines, q)[k].lineContent == Strip(lines[AllMatches(lines, q)[k].lineNumber - 1])
  {
    if |lines| > 0 {
      var init := lines[..|lines| - 1];
      AllMatchesSound(init, q);
      var prev := AllMatches(init, q);
      var all := AllMatches(lines, q);
      forall k | 0 <= k < |all|
        ensures 1 <= all[k].lineNumber <= |lines| && Contains(Lower(lines[all[k].lineNumber - 1]), q)
        ensures all[k].lineContent == Strip(lines[all[k].lineNumber - 1])
      {
        if k < |prev| {
          assert all[k] == prev[k];
          assert init[prev[k].lineNumber - 1] == lines[prev[k].lineNumber - 1];
        }
      }
    }
  }

  /** Line numbers are between 1 and the number of lines. */
  lemma {:induction false} AllMatchesBounded(lines: seq<string>, q: string)
    ensures forall k :: 0 <= k < |AllMatches(lines, q)| ==> 1 <= AllMatches(lines, q)[k].lineNumber <= |lines|
  {
    if |lines| > 0 {
      AllMatchesBounded(lines[..|lines| - 1], q);
    }
  }

  /** Line numbers are strictly ascending. */
  lemma {:induction false} AllMatchesAscending(lines: seq<string>, q: string)
    ensures forall k, l :: 0 <= k < l < |AllMatches(lines, q)| ==>
      AllMatches(lines, q)[k].lineNumber < AllMatches(lines, q)[l].lineNumber
  {
    if |lines| > 0 {
      var init := lines[..|lines| - 1];
      AllMatchesAscending(init, q);
      AllMatchesBounded(init, q);
      var prev := AllMatches(init, q);
      var all := AllMatches(lines, q);
      assert forall k :: 0 <= k < |prev| ==> all[k] == prev[k] && prev[k].lineNumber <= |init|;
    }
  }

  /** Every matching line is reported. */
  lemma {:induction false} AllMatchesComplete(lines: seq<string>, q: string)
    ensures forall i :: 0 <= i < |lines| && Contains(Lower(lines[i]), q) ==>
      exists k :: 0 <= k < |AllMatches(lines, q)| && AllMatches(lines, q)[k].lineNumber == i + 1
  {
    if |lines| > 0 {
      var init := lines[..|lines| - 1];
      AllMatchesComplete(init, q);
      var prev := AllMatches(init, q);
      var all := AllMatches(lines, q);
      forall i | 0 <= i < |lines| && Contains(Lower(lines[i]), q)
        ensures exists k :: 0 <= k < |all| && all[k].lineNumber == i + 1
      {
        if i < |lines| - 1 {
          assert init[i] == lines[i];
          var k :| 0 <= k < |prev| && prev[k].lineNumber == i + 1;
          assert all[k] == prev[k];
        } else {
          assert all == prev + [LineMatch(|lines|, Strip(lines[|lines| - 1]))];
          assert all[|prev|].lineNumber == i + 1;
        }
      }
      assert all == AllMatches(lines, q);
    }
  }

  /** What one reported file satisfies. */
  predicate ReportedFile(r: FileMatches, names: seq<string>, files: map<string, string>, query: string)
  {
    && r.filename in names && r.filename in files
    && Contains(Lower(files[r.filename]), Lower(query))
    && var all := AllMatches(Split(files[r.filename], "\n"), Lower(query));
       r.matchCount == |all| && r.matches == all[..Min(MatchCap, |all|)]
  }

  /**
   * A file is reported iff the lower-cased query occurs in its lower-cased
   * text; its match count counts every matching line, and at most the first
   * five matches are returned.
   */
  lemma {:induction false} SearchResultsExact(names: seq<string>, files: map<string, string>, query: string)
    ensures forall k :: 0 <= k < |SearchResults(names, files, query)| ==>
      ReportedFile(SearchResults(names, files, query)[k], names, files, query)
      && |SearchResults(names, files, query)[k].matches| <= MatchCap
      && |SearchResults(names, files, query)[k].matches| <= SearchResults(names, files, query)[k].matchCount
    ensures forall n :: n in names && n in files && Contains(Lower(files[n]), Lower(query)) ==>
      exists k :: 0 <= k < |SearchResults(names, files, query)| && SearchResults(names, files, query)[k].filename == n
  {
    if |names| > 0 {
      var init := names[..|names| - 1];
      var last := names[|names| - 1];
      SearchResultsExact(init, files, query);
      var prev := SearchResults(init, files, query);
      var all := SearchResults(names, files, query);
      assert forall k :: 0 <= k < |prev| ==> all[k] == prev[k];
      forall k | 0 <= k < |all|
        ensures ReportedFile(all[k], names, files, query)
        ensures |all[k].matches| <= MatchCap && |all[k].matches| <= all[k].matchCount
      {
        if k < |prev| {
          assert prev[k].filename in init;
        }
      }
      forall n | n in names && n in files && Contains(Lower(files[n]), Lower(query))
        ensures exists k :: 0 <= k < |all| && all[k].filename == n
      {
        if n == last {
          assert all[|all| - 1].filename == n;
        } else {
          assert n in init by {
            var i :| 0 <= i < |names| && names[i] == n;
            assert init[i] == n;
          }
          var k :| 0 <= k < |prev| && prev[k].filename == n;
          assert all[k].filename == n;
        }
      }
    }
  }

  // ---------------------------------------------------------------------
  // project_status
  // ---------------------------------------------------------------------

  datatype Task = Task(status: string)

  function CompletedCount(tasks: seq<Task>): (c: nat)
    ensures c <= |tasks|
    ensures c == |tasks| <==> forall k :: 0 <= k < |tasks| ==> tasks[k].status == "Completed"
  {
    if |tasks| == 0 then 0
    else CompletedCount(tasks[..|tasks| - 1]) + (if tasks[|tasks| - 1].status == "Completed" then 1 else 0)
  }

  datatype Progress = Progress(total: nat, completed: nat, percentage: real)

  /** The progress block of one project (before rounding). */
  function ProjectProgress(tasks: seq<Task>): (p: Progress)
    ensures p.total == |tasks| && p.completed == CompletedCount(tasks) && p.completed <= p.total
    ensures 0.0 <= p.percentage <= 100.0
    ensures p.total == 0 ==> p.percentage == 0.0
    ensures p.percentage == 100.0 <==> p.total > 0 && p.completed == p.total
  {
    var total := |tasks|;
    var completed := CompletedCount(tasks);
    var pct := if total > 0 then completed as real / total as real * 100.0 else 0.0;
    if total > 0 then
      Ratio(completed, total);
      Progress(total, completed, pct)
    else Progress(total, completed, pct)
  }

  /** A share of a positive whole, as a percentage, lies in [0, 100] and is 100 only for the whole. */
  lemma Ratio(part: nat, whole: nat)
    requires 0 < whole && part <= whole
    ensures 0.0 <= part as real / whole as real * 100.0 <= 100.0
    ensures part as real / whole as real * 100.0 == 100.0 <==> part == whole
  {
    var q := part as real / whole as real;
    assert q * whole as real == part as real;
    if q == 1.0 {
      assert part as real == whole as real;
    }
    if part == whole {
      assert q == 1.0;
    }
  }

  /** One row of the all-projects query; SQL NULL is `None`. */
  datatype ProjectRow = ProjectRow(totalTasks: Option<nat>, completedTasks: Option<nat>)

  /** `x or 0`. */
  function OrZero(x: Option<nat>): nat
  {
    match x
    case None => 0
    case Some(v) => v
  }

  function RowPercentage(row: ProjectRow): real
  {
    var total := OrZero(row.totalTasks);
    if total > 0 then OrZero(row.completedTasks) as real / total as real * 100.0 else 0.0
  }

  /** The all-projects branch: one percentage per row, 0 when the task count is NULL or 0. */
  method ProjectsSummary(rows: seq<ProjectRow>) returns (percentages: seq<real>)
    ensures |percentages| == |rows|
    ensures forall k :: 0 <= k < |rows| ==> percentages[k] == RowPercentage(rows[k])
    ensures forall k :: 0 <= k < |rows| && OrZero(rows[k].totalTasks) == 0 ==> percentages[k] == 0.0
    ensures forall k :: 0 <= k < |rows| && OrZero(rows[k].completedTasks) <= OrZero(rows[k].totalTasks) ==>
      0.0 <= percentages[k] <= 100.0
  {
    percentages := [];
    var i := 0;
    while i < |rows|
      invariant 0 <= i <= |rows|
      invariant |percentages| == i
      invariant forall k :: 0 <= k < i ==> percentages[k] == RowPercentage(rows[k])
    {
      percentages := percentages + [RowPercentage(rows[i])];
      i := i + 1;
    }
    forall k | 0 <= k < |rows| && OrZero(rows[k].completedTasks) <= OrZero(rows[k].totalTasks)
      ensures 0.0 <= percentages[k] <= 100.0
    {
      var total := OrZero(rows[k].totalTasks);
      if total > 0 {
        Ratio(OrZero(rows[k].completedTasks), total);
      }
    }
  }
}
