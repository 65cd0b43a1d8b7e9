/**
 * The Edit tool call card: its title, whether it expands, which raw value
 * it shows, and the unified diff text it serialises from the structured
 * patch of the edit's result.
 */
module EditToolDiff {
  import opened Wrappers
  import opened Json
  import opened Strings
  import opened TranscriptEntry

  // ---------------------------------------------------------------------
  // The unified diff
  // ---------------------------------------------------------------------

  /** The two file lines that open a unified diff. */
  function DiffHeader(filePath: string): string {
    "--- a/" + filePath + "\n" + "+++ b/" + filePath + "\n"
  }

  /** A hunk's range line, without its line end. */
  function HunkHeaderLine(h: EditToolPatchHunk): string {
    "@@ -" + IntToString(h.oldStart) + "," + IntToString(h.oldLines)
    + " +" + IntToString(h.newStart) + "," + IntToString(h.newLines) + " @@"
  }

  /** A hunk's range line with its line end: exactly one line. */
  function HunkHeader(h: EditToolPatchHunk): (r: string)
    ensures |r| > 0 && r[|r| - 1] == '\n' && '\n' !in r[..|r| - 1]
  {
    HunkHeaderLineSingle(h);
    var line := HunkHeaderLine(h);
    assert (line + "\n")[..|line|] == line;
    line + "\n"
  }

  /** A hunk's lines joined by line ends, plus one final line end. */
  function HunkBody(h: EditToolPatchHunk): string {
    Join(h.lines, "\n") + "\n"
  }

  /** One hunk's text: its range line, then its lines. */
  function HunkText(h: EditToolPatchHunk): string {
    HunkHeader(h) + HunkBody(h)
  }

  /** The hunks' texts, in patch order. */
  function HunksText(hunks: seq<EditToolPatchHunk>): string
    decreases |hunks|
  {
    if hunks == [] then ""
    else HunksText(hunks[..|hunks| - 1]) + HunkText(hunks[|hunks| - 1])
  }

  lemma Assoc(x: string, y: string, z: string)
    ensures (x + y) + z == x + (y + z)
  {
  }

  /** The diff an edit result serialises to; no result gives the empty string. */
  function UnifiedDiff(toolUseResult: Option<EditToolResult>): (diff: string)
    ensures diff == "" <==> toolUseResult.None?
    ensures toolUseResult.Some? ==> StartsWith(diff, DiffHeader(toolUseResult.value.filePath))
  {
    match toolUseResult
    case None => ""
    case Some(r) => DiffHeader(r.filePath) + HunksText(r.structuredPatch)
  }

  method GenerateUnifiedDiff(toolCall: ToolCall) returns (diff: string)
    requires IsEditToolCall(toolCall)
    ensures diff == UnifiedDiff(toolCall.toolUseResult)
  {
    if toolCall.toolUseResult.None? {
      return "";
    }
    var filePath := toolCall.toolUseResult.value.filePath;
    var structuredPatch := toolCall.toolUseResult.value.structuredPatch;
    diff := DiffHeader(filePath);
    for i := 0 to |structuredPatch|
      invariant diff == DiffHeader(filePath) + HunksText(structuredPatch[..i])
    {
      var hunk := structuredPatch[i];
      ghost var before := diff;
      diff := diff + HunkHeader(hunk);
      diff := diff + (Join(hunk.lines, "\n") + "\n");
      assert diff == before + HunkText(hunk) by {
        Assoc(before, HunkHeader(hunk), HunkBody(hunk));
      }
      DiffSnoc(filePath, structuredPatch, i);
    }
    assert structuredPatch[..|structuredPatch|] == structuredPatch;
  }

  /** Adding the next hunk's text to a diff of the first `i` hunks gives the diff of the first `i + 1`. */
  lemma DiffSnoc(filePath: string, hunks: seq<EditToolPatchHunk>, i: nat)
    requires i < |hunks|
    ensures DiffHeader(filePath) + HunksText(hunks[..i + 1]) == DiffHeader(filePath) + HunksText(hunks[..i]) + HunkText(hunks[i])
  {
    assert hunks[..i + 1][..i] == hunks[..i];
    assert HunksText(hunks[..i + 1]) == HunksText(hunks[..i]) + HunkText(hunks[i]);
    Assoc(DiffHeader(filePath), HunksText(hunks[..i]), HunkText(hunks[i]));
  }

  // ---------------------------------------------------------------------
  // Properties of the diff
  // ---------------------------------------------------------------------

  /** The text of a list of hunks is the text of each hunk, one after the other. */
  lemma {:induction false} HunksTextConcat(a: seq<EditToolPatchHunk>, b: seq<EditToolPatchHunk>)
    ensures HunksText(a + b) == HunksText(a) + HunksText(b)
    decreases |b|
  {
    if b == [] {
      assert a + b == a;
    } else {
      var init, last := b[..|b| - 1], b[|b| - 1];
      assert (a + b)[..|a + b| - 1] == a + init;
      assert (a + b)[|a + b| - 1] == last;
      assert HunksText(a + b) == HunksText(a + init) + HunkText(last);
      HunksTextConcat(a, init);
      Assoc(HunksText(a), HunksText(init), HunkText(last));
    }
  }

  /** Every diff of a result opens with its two file lines. */
  lemma DiffStartsWithHeader(r: EditToolResult)
    ensures StartsWith(UnifiedDiff(Some(r)), DiffHeader(r.filePath))
  {
    var d := UnifiedDiff(Some(r));
    assert d[..|DiffHeader(r.filePath)|] == DiffHeader(r.filePath);
  }

  /** An edit result gives a non-empty diff; only a missing result gives the empty one. */
  lemma DiffEmptyIff(toolUseResult: Option<EditToolResult>)
    ensures UnifiedDiff(toolUseResult) == "" <==> toolUseResult.None?
  {
    if toolUseResult.Some? {
      assert |UnifiedDiff(toolUseResult)| >= |DiffHeader(toolUseResult.value.filePath)|;
    }
  }

  /** A hunk's lines as the diff holds them: a hunk without lines still holds one empty line. */
  function BodyLines(h: EditToolPatchHunk): seq<string> {
    if h.lines == [] then [""] else h.lines
  }

  /** The lines of the hunks, in order: each hunk's range line and then its body lines. */
  function HunkLines(hunks: seq<EditToolPatchHunk>): seq<string>
    decreases |hunks|
  {
    if hunks == [] then []
    else HunkLines(hunks[..|hunks| - 1]) + [HunkHeaderLine(hunks[|hunks| - 1])] + BodyLines(hunks[|hunks| - 1])
  }

  /** The lines of a whole diff, without the empty piece after its final line end. */
  function DiffLines(r: EditToolResult): seq<string> {
    ["--- a/" + r.filePath, "+++ b/" + r.filePath] + HunkLines(r.structuredPatch)
  }

  /** Lines, each followed by a line end. */
  function Terminated(lines: seq<string>): string
    decreases |lines|
  {
    if lines == [] then "" else Terminated(lines[..|lines| - 1]) + lines[|lines| - 1] + "\n"
  }

  lemma {:induction false} TerminatedConcat(a: seq<string>, b: seq<string>)
    ensures Terminated(a + b) == Terminated(a) + Terminated(b)
    decreases |b|
  {
    if b == [] {
      assert a + b == a;
    } else {
      var init, last := b[..|b| - 1], b[|b| - 1];
      assert (a + b)[..|a + b| - 1] == a + init;
      assert (a + b)[|a + b| - 1] == last;
      assert Terminated(a + b) == Terminated(a + init) + last + "\n";
      TerminatedConcat(a, init);
      Assoc(Terminated(a), Terminated(init), last);
      Assoc(Terminated(a), Terminated(init) + last, "\n");
    }
  }

  /** Terminated lines are the lines joined by line ends, plus a final line end. */
  lemma {:induction false} TerminatedIsJoin(lines: seq<string>)
    requires lines != []
    ensures Terminated(lines) == Join(lines, "\n") + "\n"
    decreases |lines|
  {
    var init, last := lines[..|lines| - 1], lines[|lines| - 1];
    assert lines == init + [last];
    if init == [] {
      assert Terminated(init) == "";
      assert Join(lines, "\n") == last;
    } else {
      TerminatedIsJoin(init);
      JoinAppend(init, last, "\n");
    }
  }

  lemma HunkTextLines(h: EditToolPatchHunk)
    ensures HunkText(h) == Terminated([HunkHeaderLine(h)] + BodyLines(h))
  {
    assert Terminated([HunkHeaderLine(h)]) == HunkHeader(h) by {
      assert [HunkHeaderLine(h)][..0] == [];
    }
    if h.lines == [] {
      assert Terminated([""]) == "\n" by {
        assert [""][..0] == [];
      }
    } else {
      TerminatedIsJoin(h.lines);
    }
    TerminatedConcat([HunkHeaderLine(h)], BodyLines(h));
  }

  lemma {:induction false} HunksTextLines(hunks: seq<EditToolPatchHunk>)
    ensures HunksText(hunks) == Terminated(HunkLines(hunks))
    decreases |hunks|
  {
    if hunks != [] {
      var init, last := hunks[..|hunks| - 1], hunks[|hunks| - 1];
      HunksTextLines(init);
      HunkTextLines(last);
      assert HunkLines(hunks) == HunkLines(init) + ([HunkHeaderLine(last)] + BodyLines(last));
      TerminatedConcat(HunkLines(init), [HunkHeaderLine(last)] + BodyLines(last));
    }
  }

  /** The diff is its lines, each ended by a line end. */
  lemma DiffIsLines(r: EditToolResult)
    ensures UnifiedDiff(Some(r)) == Join(DiffLines(r), "\n") + "\n"
  {
    var top := ["--- a/" + r.filePath, "+++ b/" + r.filePath];
    assert Terminated(top) == DiffHeader(r.filePath) by {
      assert top[..1][..0] == [];
      assert top[..1] == ["--- a/" + r.filePath];
      assert Terminated(top[..1]) == "--- a/" + r.filePath + "\n";
    }
    HunksTextLines(r.structuredPatch);
    TerminatedConcat(top, HunkLines(r.structuredPatch));
    TerminatedIsJoin(DiffLines(r));
  }

  /** A string without line ends. */
  predicate SingleLine(s: string) {
    '\n' !in s
  }

  lemma HunkHeaderLineSingle(h: EditToolPatchHunk)
    ensures SingleLine(HunkHeaderLine(h))
  {
    var a, b, c, d := IntToString(h.oldStart), IntToString(h.oldLines), IntToString(h.newStart), IntToString(h.newLines);
    assert forall k :: 0 <= k < |a| ==> a[k] != '\n';
    assert forall k :: 0 <= k < |b| ==> b[k] != '\n';
    assert forall k :: 0 <= k < |c| ==> c[k] != '\n';
    assert forall k :: 0 <= k < |d| ==> d[k] != '\n';
  }

  lemma {:induction false} HunkLinesSingle(hunks: seq<EditToolPatchHunk>)
    requires forall i, j :: 0 <= i < |hunks| && 0 <= j < |hunks[i].lines| ==> SingleLine(hunks[i].lines[j])
    ensures forall k :: 0 <= k < |HunkLines(hunks)| ==> SingleLine(HunkLines(hunks)[k])
    decreases |hunks|
  {
    if hunks != [] {
      var h := hunks[|hunks| - 1];
      HunkLinesSingle(hunks[..|hunks| - 1]);
      HunkHeaderLineSingle(h);
      assert forall j :: 0 <= j < |h.lines| ==> SingleLine(h.lines[j]);
    }
  }

  /**
   * Read line by line, a diff is the two file lines, then for each hunk in
   * patch order its range line followed by its lines (one empty line for a
   * hunk without lines), then nothing after the last line end. This holds
   * when the path and the hunks' lines are themselves single lines.
   */
  lemma DiffLineStructure(r: EditToolResult)
    requires SingleLine(r.filePath)
    requires forall i, j :: 0 <= i < |r.structuredPatch| && 0 <= j < |r.structuredPatch[i].lines| ==>
               SingleLine(r.structuredPatch[i].lines[j])
    ensures Split(UnifiedDiff(Some(r)), '\n') == DiffLines(r) + [""]
  {
    DiffIsLines(r);
    var lines := DiffLines(r);
    JoinAppend(lines, "", "\n");
    assert Join(lines + [""], "\n") == Join(lines, "\n") + "\n";
    DiffLinesSingle(r);
    SplitJoin(lines + [""], '\n');
  }

  lemma DiffLinesSingle(r: EditToolResult)
    requires SingleLine(r.filePath)
    requires forall i, j :: 0 <= i < |r.structuredPatch| && 0 <= j < |r.structuredPatch[i].lines| ==>
               SingleLine(r.structuredPatch[i].lines[j])
    ensures forall k :: 0 <= k < |DiffLines(r) + [""]| ==> SingleLine((DiffLines(r) + [""])[k])
  {
    HunkLinesSingle(r.structuredPatch);
    assert SingleLine("--- a/" + r.filePath) && SingleLine("+++ b/" + r.filePath);
  }

  /** There is one range line per hunk of the patch. */
  lemma {:induction false} HunkLinesCount(hunks: seq<EditToolPatchHunk>)
    ensures |HunkLines(hunks)| == |hunks| + SumBodyLines(hunks)
    decreases |hunks|
  {
    if hunks != [] {
      HunkLinesCount(hunks[..|hunks| - 1]);
    }
  }

  function SumBodyLines(hunks: seq<EditToolPatchHunk>): nat
    decreases |hunks|
  {
    if hunks == [] then 0 else SumBodyLines(hunks[..|hunks| - 1]) + |BodyLines(hunks[|hunks| - 1])|
  }

  // ---------------------------------------------------------------------
  // The card
  // ---------------------------------------------------------------------

  /** The card's title: "Edit " and the edited file's name, without its directories. */
  function EditHeader(toolCall: ToolCall): (title: string)
    requires IsEditToolCall(toolCall)
    ensures |title| >= 5 && title[..5] == "Edit "
    ensures '/' !in title[5..] && EndsWith(toolCall.editInput.filePath, title[5..])
    ensures var path := toolCall.editInput.filePath;
            '/' in path ==> |title[5..]| < |path| && path[|path| - |title[5..]| - 1] == '/'
    ensures '/' !in toolCall.editInput.filePath ==> title[5..] == toolCall.editInput.filePath
  {
    "Edit " + ExtractFileName(toolCall.editInput.filePath)
  }

  /** The card expands once the call has its result. */
  predicate CanExpand(toolCall: ToolCall) {
    toolCall.result.Some?
  }

  /** A diff is drawn only when the edit result carries a structured patch. */
  predicate HasDiffData(toolCall: ToolCall)
    requires IsEditToolCall(toolCall)
  {
    toolCall.toolUseResult.Some?
  }

  /** `rawToolUseResult || input`: the raw result when it is truthy, the input otherwise. */
  function RawSection(toolCall: ToolCall): (v: Json)
    ensures JsTruthy(v)
  {
    if toolCall.rawToolUseResult.Some? && JsTruthy(toolCall.rawToolUseResult.value) then toolCall.rawToolUseResult.value
    else JObj(InputObject(toolCall))
  }

  /**
   * The raw section always shows something truthy: the raw result exactly
   * when it is present and truthy, and otherwise the call's input object.
   */
  lemma RawSectionChoice(toolCall: ToolCall)
    ensures JsTruthy(RawSection(toolCall))
    ensures toolCall.rawToolUseResult.None? || !JsTruthy(toolCall.rawToolUseResult.value) ==>
              RawSection(toolCall) == JObj(InputObject(toolCall))
    ensures toolCall.rawToolUseResult.Some? && JsTruthy(toolCall.rawToolUseResult.value) ==>
              RawSection(toolCall) == toolCall.rawToolUseResult.value
  {
  }

  /** Whenever a diff is drawn, the text it is drawn from is not empty. */
  lemma DrawnDiffNonEmpty(toolCall: ToolCall)
    requires IsEditToolCall(toolCall) && HasDiffData(toolCall)
    ensures UnifiedDiff(toolCall.toolUseResult) != ""
  {
    DiffEmptyIff(toolCall.toolUseResult);
  }
}
