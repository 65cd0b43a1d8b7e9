/**
 * The older one-line tool call card: a terminal-style summary of the call
 * ("Read(path:10-30)" or the bare tool name) and which sections the
 * expanded card shows.
 */
module ToolCallSummary {
  import opened Wrappers
  import opened Json
  import opened Strings
  import opened TranscriptEntry
  import opened ReadToolHeader

  /**
   * The input fields the summary reads have the types the component
   * asserts for them: a string path and numeric offset and limit, each
   * possibly absent.
   */
  predicate TypedReadInput(input: map<string, Json>) {
    && ("file_path" in input ==> input["file_path"].JStr?)
    && ("offset" in input ==> input["offset"].JNum?)
    && ("limit" in input ==> input["limit"].JNum?)
  }

  function NumField(input: map<string, Json>, key: string): (r: Option<int>)
    requires key in input ==> input[key].JNum?
    ensures r.Some? <==> key in input
  {
    if key in input then Some(input[key].n) else None
  }

  /** `input.file_path`, with an absent path read as the empty string (both are falsy). */
  function PathField(input: map<string, Json>): string
    requires "file_path" in input ==> input["file_path"].JStr?
  {
    if "file_path" in input then input["file_path"].s else ""
  }

  /** The summary is always one parenthesised call, `Read(` to `)`. */
  function GetReadSummary(input: map<string, Json>): (r: string)
    requires TypedReadInput(input)
    ensures StartsWith(r, "Read(") && r[|r| - 1] == ')'
  {
    var filePath := PathField(input);
    if filePath == "" then "Read(?)"
    else
      var offset := NumField(input, "offset");
      var limit := NumField(input, "limit");
      var inner :=
        if offset.Some? && limit.Some? then
          var startLine := offset.value;
          var endLine := offset.value + limit.value - 1;
          filePath + ":" + IntToString(startLine) + "-" + IntToString(endLine)
        else if limit.Some? then
          filePath + ":" + "1-" + IntToString(limit.value)
        else
          filePath;
      assert ("Read(" + inner + ")")[..5] == "Read(";
      "Read(" + inner + ")"
  }

  /**
   * The lines the summary names: both fields give offset..offset+limit-1,
   * a limit alone gives the 1-based lines 1..limit, and an offset without a
   * limit is ignored.
   */
  function SummaryRange(offset: Option<int>, limit: Option<int>): LineRange {
    match (offset, limit)
    case (Some(o), Some(l)) => LineSpan(o, o + l - 1)
    case (None, Some(l)) => LineSpan(1, l)
    case (_, None) => WholeFile
  }

  /** The text after the path that names a range. */
  function SummaryRangeText(r: LineRange): string {
    match r
    case LineSpan(a, b) => ":" + IntToString(a) + "-" + IntToString(b)
    case _ => ""
  }

  lemma SummaryRegroup(x: string, p: string, a: string, b: string, c: string, d: string, e: string)
    ensures x + (p + a + b + c + d) + e == x + p + (a + b + c + d) + e
  {
  }

  /**
   * A summary with a path is "Read(", the path, the range it names, and
   * ")"; without a path it is "Read(?)".
   */
  lemma ReadSummaryParts(input: map<string, Json>)
    requires TypedReadInput(input)
    ensures PathField(input) == "" ==> GetReadSummary(input) == "Read(?)"
    ensures PathField(input) != "" ==>
              GetReadSummary(input) ==
                "Read(" + PathField(input)
                + SummaryRangeText(SummaryRange(NumField(input, "offset"), NumField(input, "limit"))) + ")"
  {
    var p := PathField(input);
    var offset := NumField(input, "offset");
    var limit := NumField(input, "limit");
    if p != "" {
      if offset.Some? && limit.Some? {
        SummaryRegroup("Read(", p, ":", IntToString(offset.value), "-", IntToString(offset.value + limit.value - 1), ")");
      } else if limit.Some? {
        assert IntToString(1) == "1";
        assert p + ":" + "1-" + IntToString(limit.value) == p + ":" + "1" + "-" + IntToString(limit.value);
        SummaryRegroup("Read(", p, ":", "1", "-", IntToString(limit.value), ")");
        assert SummaryRange(offset, limit) == LineSpan(1, limit.value);
      } else {
        assert p + "" == p;
      }
    }
  }

  /** An offset without a limit changes nothing in the summary. */
  lemma OffsetAloneIgnored(input: map<string, Json>)
    requires TypedReadInput(input) && "limit" !in input
    ensures GetReadSummary(input) == GetReadSummary(input - {"offset"})
  {
    var other := input - {"offset"};
    assert PathField(other) == PathField(input);
    assert NumField(other, "limit").None?;
  }

  /**
   * Against the newer header: with both fields the two name the same span;
   * with a limit alone the summary counts from 1 where the header counts
   * from 0, so both ends are one higher; an offset alone is ignored here
   * but announced there.
   */
  lemma SummaryAgainstHeader(offset: Option<int>, limit: Option<int>)
    ensures offset.Some? && limit.Some? ==> SummaryRange(offset, limit) == AnnouncedRange(offset, limit)
    ensures offset.None? && limit.Some? ==>
              SummaryRange(offset, limit).first == AnnouncedRange(offset, limit).first + 1 &&
              SummaryRange(offset, limit).last == AnnouncedRange(offset, limit).last + 1
    ensures limit.None? ==> SummaryRange(offset, limit) == WholeFile
    ensures offset.Some? && limit.None? ==> AnnouncedRange(offset, limit) == FromLine(offset.value)
  {
  }

  /** A Read summary of the call's input, or the bare tool name for any other tool. */
  function GetToolSummary(toolCall: ToolCall): (r: string)
    requires toolCall.Name() == "Read" ==> TypedReadInput(InputObject(toolCall))
    ensures toolCall.Name() != "Read" ==> r == toolCall.Name()
    ensures toolCall.Name() == "Read" ==> r == GetReadSummary(InputObject(toolCall))
    ensures toolCall.Name() == "Read" ==> StartsWith(r, "Read(") && r[|r| - 1] == ')'
  {
    if toolCall.Name() == "Read" then GetReadSummary(InputObject(toolCall))
    else toolCall.Name()
  }

  /** A validated Read call always has input of the summarised types. */
  lemma ReadCallsAreTyped(toolCall: ToolCall)
    requires IsReadToolCall(toolCall)
    ensures TypedReadInput(InputObject(toolCall))
  {
  }

  /** The summary's field readers get back exactly the validated Read input from its object. */
  lemma ReadInputReadsBack(i: ReadToolInput)
    ensures TypedReadInput(ReadInputObject(i))
    ensures PathField(ReadInputObject(i)) == i.filePath
    ensures NumField(ReadInputObject(i), "offset") == i.offset && NumField(ReadInputObject(i), "limit") == i.limit
  {
  }

  /** The card shows the raw input for every tool except Read. */
  predicate ShowsInput(toolCall: ToolCall) {
    toolCall.Name() != "Read"
  }

  /** The card shows a result section once a result is attached. */
  predicate ShowsResult(toolCall: ToolCall) {
    toolCall.result.Some?
  }

  /**
   * A Read call never shows its raw input, an Edit call always does, and
   * the result section appears exactly for correlated calls.
   */
  lemma CardSections(toolCall: ToolCall)
    ensures IsReadToolCall(toolCall) ==> !ShowsInput(toolCall)
    ensures IsEditToolCall(toolCall) ==> ShowsInput(toolCall)
    ensures ShowsResult(toolCall) <==> toolCall.result != None
  {
  }
}
