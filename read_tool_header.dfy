/**
 * The header line of a Read tool call card: "Read", the file's name, and
 * the line range the call asked for. The message-card and the older
 * tool-call component carry identical copies of this formatter, so one
 * function models both.
 */
module ReadToolHeader {
  import opened Wrappers
  import opened Strings
  import opened TranscriptEntry

  /** The range of lines a header announces. */
  datatype LineRange = WholeFile | FromLine(start: int) | LineSpan(first: int, last: int)

  /**
   * The range a Read call's `offset` and `limit` denote: both give the
   * lines offset..offset+limit-1, an offset alone reads on from there, a
   * limit alone counts from line 0. Presence is what matters, so an
   * offset or limit of 0 still counts as given.
   */
  function AnnouncedRange(offset: Option<int>, limit: Option<int>): LineRange {
    match (offset, limit)
    case (Some(o), Some(l)) => LineSpan(o, o + l - 1)
    case (Some(o), None) => FromLine(o)
    case (None, Some(l)) => LineSpan(0, l - 1)
    case (None, None) => WholeFile
  }

  /** The words inside the parentheses that announce a range. */
  function RangeText(r: LineRange): string {
    match r
    case WholeFile => ""
    case FromLine(s) => "from line " + IntToString(s)
    case LineSpan(a, b) => "lines " + IntToString(a) + "-" + IntToString(b)
  }

  /** The text that announces a range after the file name. */
  function RangeSuffix(r: LineRange): (suffix: string)
    ensures suffix == "" <==> r == WholeFile
    ensures r != WholeFile ==> |suffix| > 2 && suffix[..2] == " (" && suffix[|suffix| - 1] == ')'
  {
    if r == WholeFile then "" else " (" + RangeText(r) + ")"
  }

  /**
   * The Read card's title: "Read ", the file name, and the lines read in
   * parentheses whenever an offset or a limit was given.
   */
  function FormatReadToolHeader(toolCall: ToolCall): string
    requires IsReadToolCall(toolCall)
  {
    var head := "Read " + ExtractFileName(toolCall.readInput.filePath);
    var offset := toolCall.readInput.offset;
    var limit := toolCall.readInput.limit;
    if offset.None? && limit.None? then head
    else
      var words :=
        if offset.Some? && limit.Some? then
          var endLine := offset.value + limit.value - 1;
          "lines " + IntToString(offset.value) + "-" + IntToString(endLine)
        else if offset.Some? then "from line " + IntToString(offset.value)
        else
          var endLine := limit.value - 1;
          "lines 0-" + IntToString(endLine);
      head + " (" + words + ")"
  }

  /** The header is "Read ", the file's name, and the announced range's suffix. */
  lemma HeaderParts(toolCall: ToolCall)
    requires IsReadToolCall(toolCall)
    ensures FormatReadToolHeader(toolCall) == "Read " + ExtractFileName(toolCall.readInput.filePath)
              + RangeSuffix(AnnouncedRange(toolCall.readInput.offset, toolCall.readInput.limit))
  {
    var offset := toolCall.readInput.offset;
    var limit := toolCall.readInput.limit;
    if offset.Some? && limit.Some? {
      HeaderSpanParts(toolCall);
    } else if offset.Some? {
      HeaderFromParts(toolCall);
    } else if limit.Some? {
      HeaderLimitParts(toolCall);
    }
  }

  /**
   * The header starts with "Read " and the file name; it is exactly that
   * when neither offset nor limit is given, and otherwise goes on with a
   * parenthesised range.
   */
  lemma HeaderShape(toolCall: ToolCall)
    requires IsReadToolCall(toolCall)
    ensures var header, head := FormatReadToolHeader(toolCall), "Read " + ExtractFileName(toolCall.readInput.filePath);
            StartsWith(header, head) &&
            (toolCall.readInput.offset.None? && toolCall.readInput.limit.None? <==> header == head) &&
            (toolCall.readInput.offset.Some? || toolCall.readInput.limit.Some? ==>
               |header| > |head| + 2 && header[|head|..|head| + 2] == " (" && header[|header| - 1] == ')')
  {
    var range := AnnouncedRange(toolCall.readInput.offset, toolCall.readInput.limit);
    assert range == WholeFile <==> toolCall.readInput.offset.None? && toolCall.readInput.limit.None?;
    HeaderParts(toolCall);
    SuffixShape("Read " + ExtractFileName(toolCall.readInput.filePath), range);
  }

  /** A text followed by a range's suffix starts with that text, then `(` and `)` when a range was given. */
  lemma SuffixShape(head: string, range: LineRange)
    ensures var t := head + RangeSuffix(range);
            StartsWith(t, head) && (range == WholeFile <==> t == head) &&
            (range != WholeFile ==> |t| > |head| + 2 && t[|head|..|head| + 2] == " (" && t[|t| - 1] == ')')
  {
    var suffix := RangeSuffix(range);
    assert (head + suffix)[..|head|] == head;
    assert (head + suffix)[|head|..] == suffix;
    if range != WholeFile {
      assert (head + suffix)[|head|..|head| + 2] == suffix[..2];
    }
  }

  lemma HeaderSpanParts(toolCall: ToolCall)
    requires IsReadToolCall(toolCall) && toolCall.readInput.offset.Some? && toolCall.readInput.limit.Some?
    ensures FormatReadToolHeader(toolCall) == "Read " + ExtractFileName(toolCall.readInput.filePath)
              + RangeSuffix(AnnouncedRange(toolCall.readInput.offset, toolCall.readInput.limit))
  {
    var head := "Read " + ExtractFileName(toolCall.readInput.filePath);
    var o, l := toolCall.readInput.offset.value, toolCall.readInput.limit.value;
    var w := "lines " + IntToString(o) + "-" + IntToString(o + l - 1);
    assert RangeText(LineSpan(o, o + l - 1)) == w;
    assert head + " (" + w + ")" == head + (" (" + w + ")");
  }

  lemma HeaderFromParts(toolCall: ToolCall)
    requires IsReadToolCall(toolCall) && toolCall.readInput.offset.Some? && toolCall.readInput.limit.None?
    ensures FormatReadToolHeader(toolCall) == "Read " + ExtractFileName(toolCall.readInput.filePath)
              + RangeSuffix(AnnouncedRange(toolCall.readInput.offset, toolCall.readInput.limit))
  {
    var head := "Read " + ExtractFileName(toolCall.readInput.filePath);
    var w := "from line " + IntToString(toolCall.readInput.offset.value);
    assert head + " (" + w + ")" == head + (" (" + w + ")");
  }

  lemma HeaderLimitParts(toolCall: ToolCall)
    requires IsReadToolCall(toolCall) && toolCall.readInput.offset.None? && toolCall.readInput.limit.Some?
    ensures FormatReadToolHeader(toolCall) == "Read " + ExtractFileName(toolCall.readInput.filePath)
              + RangeSuffix(AnnouncedRange(toolCall.readInput.offset, toolCall.readInput.limit))
  {
    var head := "Read " + ExtractFileName(toolCall.readInput.filePath);
    var e := IntToString(toolCall.readInput.limit.value - 1);
    assert IntToString(0) == "0";
    var w := "lines " + IntToString(0) + "-" + e;
    assert "lines 0-" + e == w;
    assert RangeText(LineSpan(0, toolCall.readInput.limit.value - 1)) == w;
    assert head + " (" + w + ")" == head + (" (" + w + ")");
  }

  // ---------------------------------------------------------------------
  // Reading a header back
  // ---------------------------------------------------------------------

  /** `A-B` with two integers; the first may itself start with a minus sign. */
  function ParseSpan(t: string): Option<LineRange> {
    match IndexFrom(t, '-', 1)
    case None => None
    case Some(k) =>
      match (ParseInt(t[..k]), ParseInt(t[k + 1..]))
      case (Some(a), Some(b)) => Some(LineSpan(a, b))
      case _ => None
  }

  /** The text between the parentheses of a range suffix. */
  function ParseRangeInner(inner: string): Option<LineRange> {
    if StartsWith(inner, "from line ") then
      match ParseInt(inner[10..])
      case Some(n) => Some(FromLine(n))
      case None => None
    else if StartsWith(inner, "lines ") then ParseSpan(inner[6..])
    else None
  }

  /**
   * What follows "Read " split into the file name and the announced range:
   * a trailing parenthesised range after the last `(` is the range,
   * anything else is part of the file name.
   */
  function ParseNameAndSuffix(rest: string): (string, LineRange) {
    if EndsWith(rest, ")") && '(' in rest then
      var seg := LastSegment(rest, '(');
      var open := |rest| - |seg| - 1;
      var inner := seg[..|seg| - 1];
      if open >= 1 && rest[open - 1] == ' ' && ParseRangeInner(inner).Some? then
        (rest[..open - 1], ParseRangeInner(inner).value)
      else (rest, WholeFile)
    else (rest, WholeFile)
  }

  /** A header read back into the file name and the announced range. */
  function ParseReadHeader(header: string): Option<(string, LineRange)> {
    if StartsWith(header, "Read ") then Some(ParseNameAndSuffix(header[5..])) else None
  }

  lemma ParseSpanRoundTrip(a: int, b: int)
    ensures ParseSpan(IntToString(a) + "-" + IntToString(b)) == Some(LineSpan(a, b))
  {
    var sa, sb := IntToString(a), IntToString(b);
    var t := sa + "-" + sb;
    IntToStringTail(a);
    assert forall j :: 1 <= j < |sa| ==> t[j] == sa[j] && t[j] != '-';
    assert t[|sa|] == '-';
    assert IndexFrom(t, '-', 1) == Some(|sa|);
    assert t[..|sa|] == sa && t[|sa| + 1..] == sb;
    ParseIntToString(a);
    ParseIntToString(b);
  }

  lemma DropPrefix(p: string, x: string)
    ensures StartsWith(p + x, p) && (p + x)[|p|..] == x
  {
    assert (p + x)[..|p|] == p;
  }

  /** Every range other than the whole file reads back from its words. */
  lemma RangeTextRoundTrip(r: LineRange)
    requires r != WholeFile
    ensures ParseRangeInner(RangeText(r)) == Some(r)
  {
    match r
    case FromLine(n) =>
      DropPrefix("from line ", IntToString(n));
      ParseIntToString(n);
    case LineSpan(a, b) =>
      var p := "lines ";
      var x := IntToString(a) + "-" + IntToString(b);
      assert RangeText(r) == p + x;
      DropPrefix(p, x);
      assert !StartsWith(p + x, "from line ") by {
        assert (p + x)[0] == 'l';
      }
      ParseSpanRoundTrip(a, b);
  }

  /** The words of a range hold no parenthesis. */
  lemma RangeTextHasNoParen(r: LineRange)
    ensures '(' !in RangeText(r)
  {
    match r
    case WholeFile =>
    case FromLine(n) =>
      var d := IntToString(n);
      assert forall k :: 0 <= k < |d| ==> d[k] != '(';
      assert '(' !in "from line ";
    case LineSpan(a, b) =>
      var da, db := IntToString(a), IntToString(b);
      assert forall k :: 0 <= k < |da| ==> da[k] != '(';
      assert forall k :: 0 <= k < |db| ==> db[k] != '(';
      assert '(' !in "lines ";
  }

  /** A name followed by parenthesised words without `(` splits at that parenthesis. */
  lemma ParseNameWithWords(fileName: string, t: string)
    requires '(' !in t && ParseRangeInner(t).Some?
    ensures ParseNameAndSuffix(fileName + ((" (" + t) + ")")) == (fileName, ParseRangeInner(t).value)
  {
    var rest := fileName + ((" (" + t) + ")");
    var seg := LastSegment(rest, '(');
    assert EndsWith(rest, ")") && '(' in rest && seg == t + ")" by {
      assert '(' !in t + ")";
      assert rest == (fileName + " ") + ['('] + (t + ")");
      LastSegmentAfter(fileName + " ", '(', t + ")");
      assert rest[|fileName| + 1] == '(';
      assert rest[|rest| - 1..] == ")";
    }
    assert |rest| - |seg| - 1 == |fileName| + 1;
    assert seg[..|seg| - 1] == t;
    assert rest[|fileName|] == ' ' && rest[..|fileName|] == fileName;
  }

  lemma ParseNameWithRange(fileName: string, range: LineRange)
    requires range != WholeFile
    ensures ParseNameAndSuffix(fileName + RangeSuffix(range)) == (fileName, range)
  {
    RangeTextHasNoParen(range);
    RangeTextRoundTrip(range);
    ParseNameWithWords(fileName, RangeText(range));
  }

  /** A name followed by a range suffix reads back as that name and range. */
  lemma ParseNameAndRange(fileName: string, range: LineRange)
    requires range == WholeFile ==> !EndsWith(fileName, ")")
    ensures ParseReadHeader("Read " + fileName + RangeSuffix(range)) == Some((fileName, range))
  {
    var rest := fileName + RangeSuffix(range);
    DropPrefix("Read ", rest);
    assert "Read " + fileName + RangeSuffix(range) == "Read " + rest;
    if range != WholeFile {
      ParseNameWithRange(fileName, range);
    } else {
      assert rest == fileName;
    }
  }

  /**
   * The header determines the file name and the announced range. A header
   * without a range reads back only when the file name does not itself end
   * in `)`.
   */
  lemma HeaderRoundTrip(toolCall: ToolCall)
    requires IsReadToolCall(toolCall)
    requires var range := AnnouncedRange(toolCall.readInput.offset, toolCall.readInput.limit);
             range == WholeFile ==> !EndsWith(ExtractFileName(toolCall.readInput.filePath), ")")
    ensures ParseReadHeader(FormatReadToolHeader(toolCall)) ==
              Some((ExtractFileName(toolCall.readInput.filePath),
                    AnnouncedRange(toolCall.readInput.offset, toolCall.readInput.limit)))
  {
    HeaderParts(toolCall);
    ParseNameAndRange(ExtractFileName(toolCall.readInput.filePath),
                      AnnouncedRange(toolCall.readInput.offset, toolCall.readInput.limit));
  }

  // ---------------------------------------------------------------------
  // Consequences
  // ---------------------------------------------------------------------

  /** Every header starts with "Read " and the file's name. */
  lemma HeaderStartsWithFileName(toolCall: ToolCall)
    requires IsReadToolCall(toolCall)
    ensures StartsWith(FormatReadToolHeader(toolCall), "Read " + ExtractFileName(toolCall.readInput.filePath))
  {
    HeaderParts(toolCall);
    var prefix := "Read " + ExtractFileName(toolCall.readInput.filePath);
    DropPrefix(prefix, RangeSuffix(AnnouncedRange(toolCall.readInput.offset, toolCall.readInput.limit)));
  }

  /** An offset or limit of 0 still counts as given: the header is never the bare one then. */
  lemma ZeroCountsAsGiven(toolCall: ToolCall)
    requires IsReadToolCall(toolCall)
    requires toolCall.readInput.offset.Some? || toolCall.readInput.limit.Some?
    ensures FormatReadToolHeader(toolCall) != "Read " + ExtractFileName(toolCall.readInput.filePath)
  {
    HeaderParts(toolCall);
  }

  /**
   * Offset 0 with a limit announces the same lines as the limit alone, so
   * the header cannot tell the two calls apart.
   */
  lemma ZeroOffsetIndistinguishable(filePath: string, limit: int)
    ensures FormatReadToolHeader(ReadToolCall("", ReadToolInput(filePath, Some(0), Some(limit)), None, None)) ==
            FormatReadToolHeader(ReadToolCall("", ReadToolInput(filePath, None, Some(limit)), None, None))
  {
    HeaderParts(ReadToolCall("", ReadToolInput(filePath, Some(0), Some(limit)), None, None));
    HeaderParts(ReadToolCall("", ReadToolInput(filePath, None, Some(limit)), None, None));
  }

  lemma ExampleSuffixes()
    ensures RangeSuffix(LineSpan(5, 9)) == " (lines 5-9)"
    ensures RangeSuffix(LineSpan(0, 9)) == " (lines 0-9)"
  {
    assert IntToString(0) == "0" && IntToString(5) == "5" && IntToString(9) == "9";
  }

  /** Offset 5 and limit 5 announce lines 5 to 9. */
  lemma SpanExample(filePath: string)
    ensures FormatReadToolHeader(ReadToolCall("t", ReadToolInput(filePath, Some(5), Some(5)), None, None)) ==
            "Read " + ExtractFileName(filePath) + " (lines 5-9)"
  {
    HeaderSpanParts(ReadToolCall("t", ReadToolInput(filePath, Some(5), Some(5)), None, None));
    assert AnnouncedRange(Some(5), Some(5)) == LineSpan(5, 9);
    ExampleSuffixes();
  }

  /** A limit alone counts from line 0: limit 10 announces lines 0 to 9. */
  lemma LimitExample(filePath: string)
    ensures FormatReadToolHeader(ReadToolCall("t", ReadToolInput(filePath, None, Some(10)), None, None)) ==
            "Read " + ExtractFileName(filePath) + " (lines 0-9)"
  {
    HeaderLimitParts(ReadToolCall("t", ReadToolInput(filePath, None, Some(10)), None, None));
    assert AnnouncedRange(None, Some(10)) == LineSpan(0, 9);
    ExampleSuffixes();
  }
}
