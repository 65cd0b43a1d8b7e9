/**
 * The sample fetcher around the analysis: which gists are transcripts,
 * how a gist's files divide into the main transcript and subagent
 * transcripts, the index entry for a gist, and the Markdown index of all
 * entries. Listing, downloading and writing files are inputs and outputs
 * of these functions rather than part of them.
 */
module GistSamples {
  import opened Wrappers
  import opened Json
  import opened Strings
  import opened Seqs
  import opened TranscriptAnalysis

  // ---------------------------------------------------------------------
  // discover_gists
  // ---------------------------------------------------------------------

  const DescriptionMarker := "Claude Code session transcript:"

  /**
   * Python's `MARKER in (g.get("description") or "")`: substring search in
   * a string, element search in a list, key search in a dict; a falsy value
   * becomes `""`, and a truthy number or boolean raises `TypeError`.
   */
  function MarkerIn(description: Json): (r: Result<bool, PyError>)
    ensures !PyTruthy(description) ==> r == Success(false)
    ensures r.Failure? <==> PyTruthy(description) && !description.JStr? && !description.JArr? && !description.JObj?
    ensures r.Failure? ==> r.error == TypeError
  {
    assert DescriptionMarker[0] == 'C';
    if !PyTruthy(description) then Success(Contains("", DescriptionMarker))
    else
      match description
      case JStr(s) => Success(Contains(s, DescriptionMarker))
      case JArr(items) => Success(JStr(DescriptionMarker) in items)
      case JObj(fields) => Success(DescriptionMarker in fields)
      case _ => Failure(TypeError)
  }

  /** A listed gist's description, `None` when it has none. */
  function Description(gist: Json): Json
    requires gist.JObj?
  {
    PyGet(gist.fields, "description", JNull)
  }

  /** `g.get(...)` raises on a gist that is not a dict; the marker test may raise as well. */
  function IsTranscriptGist(gist: Json): (r: Result<bool, PyError>)
    ensures r == Failure(AttributeError) <==> !gist.JObj?
  {
    if !gist.JObj? then Failure(AttributeError) else MarkerIn(Description(gist))
  }

  /** `discover_gists` over the decoded gist list: the gists that pass, in order, or the first exception. */
  function DiscoverGists(gists: seq<Json>): (r: Result<seq<Json>, PyError>)
    ensures r.Success? ==> |r.value| <= |gists|
    decreases |gists|
  {
    if gists == [] then Success([])
    else
      match IsTranscriptGist(gists[0])
      case Failure(e) => Failure(e)
      case Success(keep) =>
        match DiscoverGists(gists[1..])
        case Failure(e) => Failure(e)
        case Success(rest) => Success(if keep then [gists[0]] + rest else rest)
  }

  /** The marker is not empty, so an empty or missing description never matches. */
  lemma EmptyDescriptionNeverMatches()
    ensures !Contains("", DescriptionMarker)
    ensures MarkerIn(JNull) == Success(false)
  {
  }

  /** A gist is kept exactly when its test succeeds and says so. */
  predicate Kept(gist: Json) {
    IsTranscriptGist(gist) == Success(true)
  }

  /**
   * When no gist raises, the result is exactly the gists whose description
   * holds the marker, in their listed order; a gist with a null or missing
   * description is never among them.
   */
  lemma {:induction false} DiscoverGistsIsFilter(gists: seq<Json>)
    requires forall i :: 0 <= i < |gists| ==> IsTranscriptGist(gists[i]).Success?
    ensures DiscoverGists(gists) == Success(Filter(Kept, gists))
    ensures forall i :: 0 <= i < |gists| && gists[i].JObj? && Description(gists[i]) == JNull ==> !Kept(gists[i])
    decreases |gists|
  {
    if gists != [] {
      assert forall i :: 0 <= i < |gists[1..]| ==> gists[1..][i] == gists[i + 1];
      DiscoverGistsIsFilter(gists[1..]);
      var keep := IsTranscriptGist(gists[0]).value;
      assert Kept(gists[0]) == keep;
      var rest := Filter(Kept, gists[1..]);
      assert DiscoverGists(gists[1..]) == Success(rest);
      if keep {
        assert Filter(Kept, gists) == [gists[0]] + rest;
      } else {
        assert Filter(Kept, gists) == [] + rest == rest;
      }
    } else {
      assert Filter(Kept, gists) == [];
    }
    EmptyDescriptionNeverMatches();
  }

  /** A string description keeps its gist exactly when it contains the marker. */
  lemma StringDescription(gist: Json, description: string)
    requires gist.JObj? && Description(gist) == JStr(description)
    ensures Kept(gist) <==> Contains(description, DescriptionMarker)
  {
  }

  // ---------------------------------------------------------------------
  // process_gist: which files are analysed
  // ---------------------------------------------------------------------

  /** `os.path.basename` on a POSIX path: the text after the last `/`. */
  function Basename(path: string): string {
    LastSegment(path, '/')
  }

  predicate IsJsonl(path: string) {
    EndsWith(path, ".jsonl")
  }

  /** A subagent transcript's file name starts with `agent-`. */
  predicate IsAgentFile(path: string) {
    StartsWith(Basename(path), "agent-")
  }

  predicate IsMainFile(path: string) {
    !IsAgentFile(path)
  }

  function JsonlFiles(paths: seq<string>): seq<string> {
    Filter(IsJsonl, paths)
  }

  /** The transcripts that are not agent files, each one a `.jsonl` file. */
  function MainFiles(paths: seq<string>): (r: seq<string>)
    ensures |r| <= |paths|
    ensures forall i :: 0 <= i < |r| ==> IsJsonl(r[i]) && !IsAgentFile(r[i])
  {
    var jsonl := JsonlFiles(paths);
    FilterAllPass(IsJsonl, paths);
    FilterAllPass(IsMainFile, jsonl);
    var r := Filter(IsMainFile, jsonl);
    forall i | 0 <= i < |r| ensures IsJsonl(r[i]) {
      FilterMembership(IsMainFile, jsonl, r[i]);
    }
    r
  }

  function AgentFiles(paths: seq<string>): seq<string> {
    Filter(IsAgentFile, JsonlFiles(paths))
  }

  /** A file written as `os.path.join(dest_dir, filename)` is classified by its own name. */
  lemma WrittenFileName(destDir: string, filename: string)
    requires '/' !in filename
    ensures Basename(destDir + "/" + filename) == filename
    ensures IsAgentFile(destDir + "/" + filename) <==> StartsWith(filename, "agent-")
  {
    LastSegmentAfter(destDir, '/', filename);
  }

  /**
   * The main and subagent lists divide the `.jsonl` files: no file is in
   * both, each holds exactly the `.jsonl` files of its kind, and together
   * they hold every `.jsonl` file as often as it is listed.
   */
  lemma PartitionOfFiles(paths: seq<string>)
    ensures forall p :: p in MainFiles(paths) <==> p in paths && IsJsonl(p) && !IsAgentFile(p)
    ensures forall p :: p in AgentFiles(paths) <==> p in paths && IsJsonl(p) && IsAgentFile(p)
    ensures forall p :: !(p in MainFiles(paths) && p in AgentFiles(paths))
    ensures multiset(MainFiles(paths)) + multiset(AgentFiles(paths)) == multiset(JsonlFiles(paths))
    ensures |MainFiles(paths)| + |AgentFiles(paths)| == |JsonlFiles(paths)|
  {
    forall p
      ensures p in MainFiles(paths) <==> p in paths && IsJsonl(p) && !IsAgentFile(p)
      ensures p in AgentFiles(paths) <==> p in paths && IsJsonl(p) && IsAgentFile(p)
    {
      FilterMembership(IsJsonl, paths, p);
      FilterMembership(IsMainFile, JsonlFiles(paths), p);
      FilterMembership(IsAgentFile, JsonlFiles(paths), p);
    }
    FilterPartition(IsMainFile, IsAgentFile, JsonlFiles(paths));
  }

  /** Both lists keep the order in which the files were downloaded. */
  lemma PartitionKeepsOrder(paths: seq<string>) returns (mainIdx: seq<nat>, agentIdx: seq<nat>)
    ensures |mainIdx| == |MainFiles(paths)| && IncreasingIndices(mainIdx, JsonlFiles(paths))
    ensures forall k :: 0 <= k < |mainIdx| ==> MainFiles(paths)[k] == JsonlFiles(paths)[mainIdx[k]]
    ensures |agentIdx| == |AgentFiles(paths)| && IncreasingIndices(agentIdx, JsonlFiles(paths))
    ensures forall k :: 0 <= k < |agentIdx| ==> AgentFiles(paths)[k] == JsonlFiles(paths)[agentIdx[k]]
  {
    mainIdx := FilterIsSubsequence(IsMainFile, JsonlFiles(paths));
    agentIdx := FilterIsSubsequence(IsAgentFile, JsonlFiles(paths));
  }

  // ---------------------------------------------------------------------
  // process_gist: the index entry
  // ---------------------------------------------------------------------

  /** An analysis together with the `filename` key `process_gist` adds to it. */
  datatype FileAnalysis = FileAnalysis(filename: string, analysis: Analysis)

  /** The dict `process_gist` returns, without `fetched_at`. */
  datatype GistEntry = GistEntry(
    gistId: string,
    viewerUrl: string,
    mainTranscript: Option<FileAnalysis>,
    subagentTranscripts: seq<FileAnalysis>,
    hasSubagents: bool)

  const ViewerBase := "https://custardseed.com/g/"

  /** The files `process_gist` analyses, in the order it analyses them: the first main file, then every agent file. */
  function AnalysedFiles(paths: seq<string>): seq<string> {
    (if MainFiles(paths) == [] then [] else [MainFiles(paths)[0]]) + AgentFiles(paths)
  }

  /** The exception raised by the first of `files` whose analysis raises, if any. */
  function FirstFailure(files: seq<string>, read: string -> seq<string>, decode: string -> Option<Json>): (r: Option<PyError>)
    ensures r.None? <==> forall i :: 0 <= i < |files| ==> AnalysisOf(read(files[i]), decode).Success?
    decreases |files|
  {
    if files == [] then None
    else
      match AnalysisOf(read(files[0]), decode)
      case Failure(e) => Some(e)
      case Success(_) =>
        var r := FirstFailure(files[1..], read, decode);
        assert forall i :: 1 <= i < |files| ==> files[1..][i - 1] == files[i];
        r
  }

  /** `fa` is the analysis `process_gist` records for the file at `path`. */
  ghost predicate Describes(fa: FileAnalysis, path: string, read: string -> seq<string>, decode: string -> Option<Json>) {
    && fa.filename == Basename(path)
    && AnalysisOf(read(path), decode).Success?
    && Summarises(fa.analysis, AnalysisOf(read(path), decode).value)
  }

  /** `analyze_transcript(path)` followed by `analysis["filename"] = os.path.basename(path)`. */
  method AnalyzeFile(path: string, read: string -> seq<string>, decode: string -> Option<Json>)
    returns (r: Result<FileAnalysis, PyError>)
    ensures r.Failure? <==> AnalysisOf(read(path), decode).Failure?
    ensures r.Failure? ==> r.error == AnalysisOf(read(path), decode).error
    ensures r.Success? ==> Describes(r.value, path, read, decode)
  {
    var analysis := AnalyzeTranscript(read(path), decode);
    if analysis.Failure? {
      return Failure(analysis.error);
    }
    return Success(FileAnalysis(Basename(path), analysis.value));
  }

  /** The first failure in a list that starts with `path` is `path`'s, or else the first in the rest. */
  lemma FirstFailureStep(files: seq<string>, read: string -> seq<string>, decode: string -> Option<Json>)
    requires files != []
    ensures AnalysisOf(read(files[0]), decode).Failure? ==>
              FirstFailure(files, read, decode) == Some(AnalysisOf(read(files[0]), decode).error)
    ensures AnalysisOf(read(files[0]), decode).Success? ==>
              FirstFailure(files, read, decode) == FirstFailure(files[1..], read, decode)
  {
  }

  /** The loop over the agent files: each file's analysis in order, or the first exception. */
  method AnalyzeEach(files: seq<string>, read: string -> seq<string>, decode: string -> Option<Json>)
    returns (r: Result<seq<FileAnalysis>, PyError>)
    ensures r.Failure? <==> FirstFailure(files, read, decode).Some?
    ensures r.Failure? ==> r.error == FirstFailure(files, read, decode).value
    ensures r.Success? ==>
              |r.value| == |files| && forall i :: 0 <= i < |files| ==> Describes(r.value[i], files[i], read, decode)
  {
    var transcripts: seq<FileAnalysis> := [];
    for i := 0 to |files|
      invariant |transcripts| == i
      invariant forall k :: 0 <= k < i ==> Describes(transcripts[k], files[k], read, decode)
      invariant FirstFailure(files, read, decode) == FirstFailure(files[i..], read, decode)
    {
      var analysed := AnalyzeFile(files[i], read, decode);
      FirstFailureStep(files[i..], read, decode);
      assert files[i..][1..] == files[i + 1..];
      if analysed.Failure? {
        return Failure(analysed.error);
      }
      transcripts := transcripts + [analysed.value];
    }
    assert files[|files|..] == [];
    return Success(transcripts);
  }

  /**
   * `process_gist` after the download: `read` gives the lines of each
   * downloaded file. The first main file is analysed, then each agent file
   * in order; the first analysis that raises ends the call with its
   * exception.
   */
  method ProcessGist(gistId: string, filePaths: seq<string>, read: string -> seq<string>, decode: string -> Option<Json>)
    returns (r: Result<GistEntry, PyError>)
    ensures r.Failure? <==> FirstFailure(AnalysedFiles(filePaths), read, decode).Some?
    ensures r.Failure? ==> r.error == FirstFailure(AnalysedFiles(filePaths), read, decode).value
    ensures r.Success? ==>
              && r.value.gistId == gistId
              && r.value.viewerUrl == ViewerBase + gistId
              && (r.value.mainTranscript.Some? <==> MainFiles(filePaths) != [])
              && (r.value.mainTranscript.Some? ==>
                    Describes(r.value.mainTranscript.value, MainFiles(filePaths)[0], read, decode))
              && |r.value.subagentTranscripts| == |AgentFiles(filePaths)|
              && (forall i :: 0 <= i < |AgentFiles(filePaths)| ==>
                    Describes(r.value.subagentTranscripts[i], AgentFiles(filePaths)[i], read, decode))
              && (r.value.hasSubagents <==> AgentFiles(filePaths) != [])
  {
    var mainFiles := MainFiles(filePaths);
    var agentFiles := AgentFiles(filePaths);
    var mainTranscript: Option<FileAnalysis> := None;
    if mainFiles != [] {
      var analysed := AnalyzeFile(mainFiles[0], read, decode);
      FirstFailureStep(AnalysedFiles(filePaths), read, decode);
      assert AnalysedFiles(filePaths)[1..] == agentFiles;
      if analysed.Failure? {
        return Failure(analysed.error);
      }
      mainTranscript := Some(analysed.value);
    } else {
      assert AnalysedFiles(filePaths) == agentFiles;
    }
    var subagentTranscripts := AnalyzeEach(agentFiles, read, decode);
    if subagentTranscripts.Failure? {
      return Failure(subagentTranscripts.error);
    }
    return Success(GistEntry(gistId, ViewerBase + gistId, mainTranscript, subagentTranscripts.value, |agentFiles| > 0));
  }

  // ---------------------------------------------------------------------
  // build_index_md
  // ---------------------------------------------------------------------

  const IndexTitle := "# CustardSeed Gist Sample Index"
  // The table's two header lines are written in pieces: the proof that they
  // hold no newline does not go through on seventy characters in one literal.
  const TableHead := "| Gist ID | Entries " + "| Tools | Subagents " + "| Thinking | Images " + "| Viewer |"
  const TableRule := "|---------|---------" + "|-------|-----------" + "|----------|--------" + "|--------|"

  /** The seven lines before the table rows; `generatedAt` is the formatted current time. */
  function HeaderLines(generatedAt: string, count: nat): (r: seq<string>)
    ensures |r| == 7 && r[0] == IndexTitle && r[5] == TableHead && r[6] == TableRule
  {
    [IndexTitle, "", "Generated: " + generatedAt + "  ", "Total gists: " + NatToString(count), "", TableHead, TableRule]
  }

  function YesNo(b: bool): string {
    if b then "yes" else "no"
  }

  /** `", ".join(tools)[:40] or "-"`. */
  function ToolsCell(tools: seq<string>): (r: string)
    ensures |r| <= 40
  {
    var cut := Take(Join(tools, ", "), 40);
    if cut == "" then "-" else cut
  }

  /** `mt.get("total_entries", "?")` with `mt` the main transcript or `{}`. */
  function TotalCell(mainTranscript: Option<FileAnalysis>): string {
    if mainTranscript.Some? then NatToString(mainTranscript.value.analysis.totalEntries) else "?"
  }

  /**
   * The seven cells of an entry's row: the short id in backticks, the entry
   * count, the tools, the three flags and the viewer link. Without a main
   * transcript the transcript's fields read as missing.
   */
  function RowCells(e: GistEntry): (r: seq<string>)
    ensures |r| == 7
    ensures r[0] == "`" + (if |e.gistId| <= 12 then e.gistId else e.gistId[..12]) + "`"
    ensures r[3] == YesNo(e.hasSubagents)
    ensures r[6] == "[view](" + e.viewerUrl + ")"
  {
    var tools := if e.mainTranscript.Some? then e.mainTranscript.value.analysis.toolsUsed else [];
    var thinking := e.mainTranscript.Some? && e.mainTranscript.value.analysis.hasThinking;
    var images := e.mainTranscript.Some? && e.mainTranscript.value.analysis.hasImages;
    ["`" + Take(e.gistId, 12) + "`", TotalCell(e.mainTranscript), ToolsCell(tools),
     YesNo(e.hasSubagents), YesNo(thinking), YesNo(images), "[view](" + e.viewerUrl + ")"]
  }

  /** The table row of one index entry: its cells between `|` bars. */
  function Row(e: GistEntry): string {
    "| " + Join(RowCells(e), " | ") + " |"
  }

  /** One row per entry, in order. */
  function Rows(entries: seq<GistEntry>): (r: seq<string>)
    ensures |r| == |entries|
    ensures forall i :: 0 <= i < |entries| ==> r[i] == Row(entries[i])
    decreases |entries|
  {
    if entries == [] then [] else Rows(entries[..|entries| - 1]) + [Row(entries[|entries| - 1])]
  }

  /** The lines `build_index_md` joins: the header, a row per entry and a final empty line. */
  function IndexLines(entries: seq<GistEntry>, generatedAt: string): (r: seq<string>)
    ensures |r| == 7 + |entries| + 1
    ensures r[..7] == HeaderLines(generatedAt, |entries|)
    ensures forall i :: 0 <= i < |entries| ==> r[7 + i] == Row(entries[i])
    ensures r[|r| - 1] == ""
  {
    HeaderLines(generatedAt, |entries|) + Rows(entries) + [""]
  }

  /** `build_index_md`: the header lines, a row appended per entry, a trailing empty line, joined by newlines. */
  method BuildIndexMd(entries: seq<GistEntry>, generatedAt: string) returns (md: string)
    ensures md == Join(IndexLines(entries, generatedAt), "\n")
  {
    var lines := HeaderLines(generatedAt, |entries|);
    for i := 0 to |entries|
      invariant lines == HeaderLines(generatedAt, |entries|) + Rows(entries[..i])
    {
      assert entries[..i + 1][..i] == entries[..i];
      lines := lines + [Row(entries[i])];
    }
    assert entries[..|entries|] == entries;
    lines := lines + [""];
    md := Join(lines, "\n");
  }

  /** A cell cut from `s` has no character `s` lacks. */
  lemma TakeExcludes(s: string, n: nat, c: char)
    requires c !in s
    ensures c !in Take(s, n)
  {
    if n <= |s| {
      assert forall k :: 0 <= k < n ==> Take(s, n)[k] == s[k];
    }
  }

  /** No newline in an entry's id, viewer URL and tool names means none in its row. */
  lemma RowExcludesNewline(e: GistEntry)
    requires '\n' !in e.gistId && '\n' !in e.viewerUrl
    requires e.mainTranscript.Some? ==>
               forall i :: 0 <= i < |e.mainTranscript.value.analysis.toolsUsed| ==>
                 '\n' !in e.mainTranscript.value.analysis.toolsUsed[i]
    ensures '\n' !in Row(e)
  {
    var tools := if e.mainTranscript.Some? then e.mainTranscript.value.analysis.toolsUsed else [];
    TakeExcludes(e.gistId, 12, '\n');
    JoinExcludes(tools, ", ", '\n');
    TakeExcludes(Join(tools, ", "), 40, '\n');
    JoinExcludes(RowCells(e), " | ", '\n');
  }

  lemma TitleIsOneLine()
    ensures '\n' !in IndexTitle
  {
  }

  lemma TableHeadIsOneLine()
    ensures '\n' !in TableHead
  {
  }

  lemma TableRuleIsOneLine()
    ensures '\n' !in TableRule
  {
  }

  /** The header lines hold no newline when the time does not. */
  lemma HeaderExcludesNewline(generatedAt: string, count: nat)
    requires '\n' !in generatedAt
    ensures forall i :: 0 <= i < 7 ==> '\n' !in HeaderLines(generatedAt, count)[i]
  {
    TitleIsOneLine();
    TableHeadIsOneLine();
    TableRuleIsOneLine();
    assert '\n' !in "Generated: " + generatedAt + "  ";
    assert '\n' !in "Total gists: " + NatToString(count);
  }

  /**
   * Reading the index back line by line gives exactly the header, one row
   * per entry in order, and the empty last line, as long as no id, URL,
   * tool name or the time holds a newline.
   */
  lemma IndexReadsBack(entries: seq<GistEntry>, generatedAt: string, md: string)
    requires md == Join(IndexLines(entries, generatedAt), "\n")
    requires '\n' !in generatedAt
    requires forall i :: 0 <= i < |entries| ==> '\n' !in entries[i].gistId && '\n' !in entries[i].viewerUrl
    requires forall i :: 0 <= i < |entries| ==> entries[i].mainTranscript.Some? ==>
               forall j :: 0 <= j < |entries[i].mainTranscript.value.analysis.toolsUsed| ==>
                 '\n' !in entries[i].mainTranscript.value.analysis.toolsUsed[j]
    ensures Split(md, '\n') == IndexLines(entries, generatedAt)
    ensures |Split(md, '\n')| == |entries| + 8
  {
    var lines := IndexLines(entries, generatedAt);
    HeaderExcludesNewline(generatedAt, |entries|);
    forall i | 0 <= i < |lines|
      ensures '\n' !in lines[i]
    {
      if i < 7 {
        assert lines[i] == lines[..7][i];
      } else if i < |lines| - 1 {
        RowExcludesNewline(entries[i - 7]);
      }
    }
    SplitJoin(lines, '\n');
  }

  /** The tools cell: `-` when no tool was used, otherwise the first 40 characters of the joined names. */
  lemma ToolsCellShows(tools: seq<string>)
    ensures tools == [] ==> ToolsCell(tools) == "-"
    ensures tools != [] && tools[0] != "" ==>
              var joined := Join(tools, ", ");
              && StartsWith(joined, ToolsCell(tools))
              && |ToolsCell(tools)| == (if |joined| < 40 then |joined| else 40)
  {
    if tools != [] && tools[0] != "" {
      var joined := Join(tools, ", ");
      assert |tools| > 1 ==> joined == tools[0] + ", " + Join(tools[1..], ", ");
      assert |joined| >= |tools[0]| > 0;
    }
  }

  /** Without a main transcript the row reads `?` entries, `-` tools and no thinking or images. */
  lemma RowWithoutMain(e: GistEntry)
    requires e.mainTranscript.None?
    ensures RowCells(e)[1..6] == ["?", "-", YesNo(e.hasSubagents), "no", "no"]
  {
    assert Take(Join([], ", "), 40) == "";
  }

  /** With a main transcript, the entry count, tools, thinking and images cells come from its analysis. */
  lemma RowWithMain(e: GistEntry)
    requires e.mainTranscript.Some?
    ensures var a := e.mainTranscript.value.analysis;
            RowCells(e)[1] == NatToString(a.totalEntries) && RowCells(e)[2] == ToolsCell(a.toolsUsed) &&
            RowCells(e)[4] == YesNo(a.hasThinking) && RowCells(e)[5] == YesNo(a.hasImages)
  {
  }

  /** Seven pieces joined: each separator written out. */
  lemma JoinOfSeven(c: seq<string>, sep: string)
    requires |c| == 7
    ensures Join(c, sep) == c[0] + sep + c[1] + sep + c[2] + sep + c[3] + sep + c[4] + sep + c[5] + sep + c[6]
  {
    assert c[..1] == [c[0]];
    assert c[..2] == c[..1] + [c[1]];
    JoinAppend(c[..1], c[1], sep);
    assert c[..3] == c[..2] + [c[2]];
    JoinAppend(c[..2], c[2], sep);
    assert c[..4] == c[..3] + [c[3]];
    JoinAppend(c[..3], c[3], sep);
    assert c[..5] == c[..4] + [c[4]];
    JoinAppend(c[..4], c[4], sep);
    assert c[..6] == c[..5] + [c[5]];
    JoinAppend(c[..5], c[5], sep);
    assert c == c[..6] + [c[6]];
    JoinAppend(c[..6], c[6], sep);
  }

  /** A row is the f-string of the source: the seven cells between `| ` and ` |`, separated by ` | `. */
  lemma RowAsWritten(e: GistEntry)
    ensures var c := RowCells(e);
            Row(e) == "| " + (c[0] + " | " + c[1] + " | " + c[2] + " | " + c[3] + " | " + c[4] + " | " + c[5] + " | " + c[6]) + " |"
  {
    JoinOfSeven(RowCells(e), " | ");
  }
}
