/**
 * The transcript gateway of the session viewer: the structural schemas of
 * user and assistant lines, the line-by-line transcript parser that turns a
 * JSONL transcript into display messages, and the choice of the transcript
 * file within a gist.
 */
module GistGateway {
  import opened Wrappers
  import opened Json
  import opened Strings
  import opened Seqs

  // ---------------------------------------------------------------------
  // Schemas: each predicate holds exactly when the schema accepts the value
  // ---------------------------------------------------------------------

  predicate HasObject(v: Json, key: string) {
    Get(v, key).Some? && Get(v, key).value.JObj?
  }

  /** Present, and a string or null (`z.string().nullable()`). */
  predicate HasNullableString(v: Json, key: string) {
    Get(v, key).Some? && (Get(v, key).value.JStr? || Get(v, key).value.JNull?)
  }

  /** Absent, or a string (`z.string().optional()`). */
  predicate HasOptionalString(v: Json, key: string) {
    Get(v, key).None? || Get(v, key).value.JStr?
  }

  /** The value of a property, or null when it is absent. */
  function Field(v: Json, key: string): Json {
    match Get(v, key)
    case Some(x) => x
    case None => JNull
  }

  predicate TextBlockSchema(v: Json) {
    v.JObj? && IsLiteral(v, "type", "text") && HasString(v, "text")
  }

  predicate ToolUseBlockSchema(v: Json) {
    v.JObj? && IsLiteral(v, "type", "tool_use") && HasString(v, "id") && HasString(v, "name") && HasObject(v, "input")
  }

  predicate ThinkingBlockSchema(v: Json) {
    v.JObj? && IsLiteral(v, "type", "thinking") && HasString(v, "thinking")
  }

  /** A tool result's content: a string or a list of text blocks. */
  predicate ToolResultContentSchema(c: Json) {
    c.JStr? || (c.JArr? && forall i :: 0 <= i < |c.items| ==> TextBlockSchema(c.items[i]))
  }

  predicate ToolResultBlockSchema(v: Json) {
    v.JObj? && IsLiteral(v, "type", "tool_result") && HasString(v, "tool_use_id")
    && Get(v, "content").Some? && ToolResultContentSchema(Field(v, "content"))
  }

  predicate AssistantContentBlockSchema(v: Json) {
    TextBlockSchema(v) || ToolUseBlockSchema(v) || ThinkingBlockSchema(v)
  }

  predicate UserContentBlockSchema(v: Json) {
    TextBlockSchema(v) || ToolResultBlockSchema(v)
  }

  /** A user message's content: a string or a list of text and tool_result blocks. */
  predicate UserContentSchema(c: Json) {
    c.JStr? || (c.JArr? && forall i :: 0 <= i < |c.items| ==> UserContentBlockSchema(c.items[i]))
  }

  predicate AssistantContentSchema(c: Json) {
    c.JArr? && forall i :: 0 <= i < |c.items| ==> AssistantContentBlockSchema(c.items[i])
  }

  /** `message.content` of an entry, or null when either is absent. */
  function MessageContent(v: Json): Json {
    Field(Field(v, "message"), "content")
  }

  predicate UserMessageEntrySchema(v: Json) {
    && v.JObj?
    && HasString(v, "uuid")
    && HasNullableString(v, "parentUuid")
    && IsLiteral(v, "type", "user")
    && HasString(v, "timestamp")
    && HasString(v, "sessionId")
    && HasObject(v, "message")
    && IsLiteral(Field(v, "message"), "role", "user")
    && Get(Field(v, "message"), "content").Some?
    && UserContentSchema(MessageContent(v))
  }

  predicate AssistantMessageEntrySchema(v: Json) {
    && v.JObj?
    && HasString(v, "uuid")
    && HasNullableString(v, "parentUuid")
    && IsLiteral(v, "type", "assistant")
    && HasString(v, "timestamp")
    && HasOptionalString(v, "sessionId")
    && HasObject(v, "message")
    && IsLiteral(Field(v, "message"), "role", "assistant")
    && AssistantContentSchema(MessageContent(v))
  }

  /** The union discriminated by `type`. */
  predicate MessageEntrySchema(v: Json)
    ensures MessageEntrySchema(v) ==> IsLiteral(v, "type", "user") || IsLiteral(v, "type", "assistant")
  {
    if IsLiteral(v, "type", "user") then UserMessageEntrySchema(v)
    else if IsLiteral(v, "type", "assistant") then AssistantMessageEntrySchema(v)
    else false
  }

  /** A user line without a sessionId is rejected. */
  lemma UserEntryNeedsSessionId(v: Json)
    requires IsLiteral(v, "type", "user") && Get(v, "sessionId").None?
    ensures !MessageEntrySchema(v)
  {
  }

  /** An image block is not among the user blocks this schema accepts, and neither is a tool result whose content is neither a string nor a list of text blocks. */
  lemma UserBlockRejections(v: Json)
    ensures IsLiteral(v, "type", "image") ==> !UserContentBlockSchema(v)
    ensures IsLiteral(v, "type", "tool_result") && !ToolResultContentSchema(Field(v, "content")) ==> !UserContentBlockSchema(v)
  {
  }

  // ---------------------------------------------------------------------
  // Content flattening
  // ---------------------------------------------------------------------

  /** `block.type === "text"`. */
  predicate IsTextTyped(block: Json) {
    IsLiteral(block, "type", "text")
  }

  function Texts(blocks: seq<Json>): (r: seq<string>)
    ensures |r| == |blocks|
    ensures forall k :: 0 <= k < |blocks| ==> r[k] == StringOr(blocks[k], "text", "")
    decreases |blocks|
  {
    if blocks == [] then [] else [StringOr(blocks[0], "text", "")] + Texts(blocks[1..])
  }

  /** The `text` of every text block, in block order. */
  function TextFields(blocks: seq<Json>): seq<string> {
    Texts(Filter(IsTextTyped, blocks))
  }

  /** Text blocks' texts joined by newlines: `filter(text).map(b => b.text).join("\n")`. */
  function FlattenBlocks(blocks: seq<Json>): (text: string)
    ensures (forall i :: 0 <= i < |blocks| ==> !IsTextTyped(blocks[i])) ==> text == ""
  {
    FilterEmptyIff(IsTextTyped, blocks);
    Join(TextFields(blocks), "\n")
  }

  /** A user message's content: a string verbatim, or its flattened blocks. */
  function FlattenUserContent(c: Json): string {
    if c.JStr? then c.s else if c.JArr? then FlattenBlocks(c.items) else ""
  }

  /** Blocks of any other type (tool_use, thinking, tool_result) contribute nothing. */
  lemma FlattenSkipsNonText(a: seq<Json>, b: Json, c: seq<Json>)
    requires !IsTextTyped(b)
    ensures FlattenBlocks(a + [b] + c) == FlattenBlocks(a + c)
  {
    FilterConcat(IsTextTyped, a + [b], c);
    FilterConcat(IsTextTyped, a, [b]);
    FilterConcat(IsTextTyped, a, c);
    assert [b][1..] == [];
    assert Filter(IsTextTyped, [b]) == [];
    assert Filter(IsTextTyped, a + [b] + c) == Filter(IsTextTyped, a + c);
  }

  /**
   * The joined texts are those of the text blocks, in block order, and no
   * text block is left out.
   */
  lemma TextFieldsInOrder(blocks: seq<Json>) returns (idx: seq<nat>)
    ensures |idx| == |TextFields(blocks)| && IncreasingIndices(idx, blocks)
    ensures forall k :: 0 <= k < |idx| ==>
              IsTextTyped(blocks[idx[k]]) && TextFields(blocks)[k] == StringOr(blocks[idx[k]], "text", "")
    ensures forall i :: 0 <= i < |blocks| && IsTextTyped(blocks[i]) ==> i in idx
  {
    idx := FilterIsSubsequence(IsTextTyped, blocks);
    FilterAllPass(IsTextTyped, blocks);
  }

  /** A single text block flattens to its own text. */
  lemma FlattenSingleText(block: Json)
    requires TextBlockSchema(block)
    ensures FlattenBlocks([block]) == StringOr(block, "text", "")
  {
    assert Filter(IsTextTyped, [block]) == [block];
  }

  // ---------------------------------------------------------------------
  // The line-by-line parser
  // ---------------------------------------------------------------------

  datatype Role = UserRole | AssistantRole

  datatype DisplayMessage = DisplayMessage(uuid: string, role: Role, content: string, timestamp: string)

  /** The causes that abort a parse; each carries the offending line. */
  datatype ParseError =
    | InvalidJson(line: string)       // JSON.parse throws
    | NullEntry(line: string)         // the line is `null`, so reading its `type` throws
    | SchemaMismatch(line: string)    // a user or assistant line fails its schema

  datatype LineOutcome = Skip | Keep(message: DisplayMessage) | Abort(error: ParseError)

  /** What one line of the transcript contributes, following the loop body of the parser. */
  function ClassifyLine(line: string, decode: string -> Option<Json>): (r: LineOutcome)
    ensures JsBlank(line) ==> r.Skip?
    ensures !JsBlank(line) && decode(line).None? ==> r == Abort(InvalidJson(line))
    ensures r.Keep? ==> !JsBlank(r.message.content)
  {
    if JsBlank(line) then Skip
    else
      match decode(line)
      case None => Abort(InvalidJson(line))
      case Some(v) => ClassifyEntry(line, v)
  }

  /** What a decoded, non-blank line contributes. */
  function ClassifyEntry(line: string, v: Json): (r: LineOutcome)
    ensures r == Abort(NullEntry(line)) <==> v.JNull?
    ensures r.Keep? ==> !JsBlank(r.message.content) && MessageEntrySchema(v)
    ensures r.Keep? ==> (r.message.role == UserRole <==> IsLiteral(v, "type", "user"))
  {
    if v.JNull? then Abort(NullEntry(line))
    else if !IsLiteral(v, "type", "user") && !IsLiteral(v, "type", "assistant") then Skip
    else if !MessageEntrySchema(v) then Abort(SchemaMismatch(line))
    else if IsLiteral(v, "type", "user") then KeepNonBlank(v, UserRole, FlattenUserContent(MessageContent(v)))
    else KeepNonBlank(v, AssistantRole, FlattenBlocks(MessageContent(v).items))
  }

  /** Keep a message unless its flattened content is blank. */
  function KeepNonBlank(v: Json, role: Role, content: string): (r: LineOutcome)
    ensures r.Keep? <==> !JsBlank(content)
    ensures r.Keep? ==> r.message.role == role && r.message.content == content
  {
    if JsBlank(content) then Skip
    else Keep(DisplayMessage(StringOr(v, "uuid", ""), role, content, StringOr(v, "timestamp", "")))
  }

  /** The line classifier for a given decoder, as a function value. */
  function Classifier(decode: string -> Option<Json>): string -> LineOutcome {
    line => ClassifyLine(line, decode)
  }

  /** The outcome of every line, in order. */
  function Outcomes(lines: seq<string>, classify: string -> LineOutcome): (outs: seq<LineOutcome>)
    ensures |outs| == |lines|
    decreases |lines|
  {
    if lines == [] then [] else [classify(lines[0])] + Outcomes(lines[1..], classify)
  }

  lemma {:induction false} OutcomeAt(lines: seq<string>, classify: string -> LineOutcome, k: nat)
    requires k < |lines|
    ensures Outcomes(lines, classify)[k] == classify(lines[k])
    decreases k
  {
    if k > 0 {
      OutcomeAt(lines[1..], classify, k - 1);
    }
  }

  /** The parser's accumulation over line outcomes; the first abort decides the error. */
  function Fold(outs: seq<LineOutcome>): Result<seq<DisplayMessage>, ParseError>
    decreases |outs|
  {
    if outs == [] then Success([])
    else
      match Fold(outs[..|outs| - 1])
      case Failure(e) => Failure(e)
      case Success(ms) =>
        match outs[|outs| - 1]
        case Skip => Success(ms)
        case Keep(m) => Success(ms + [m])
        case Abort(e) => Failure(e)
  }

  /** `jsonlContent.trim().split("\n")`. */
  function TranscriptLines(jsonlContent: string): (lines: seq<string>)
    ensures |lines| >= 1
    ensures forall i :: 0 <= i < |lines| ==> '\n' !in lines[i]
  {
    Split(JsTrim(jsonlContent), '\n')
  }

  /** The result of parsing a whole transcript. */
  function ParseResult(jsonlContent: string, decode: string -> Option<Json>): Result<seq<DisplayMessage>, ParseError> {
    Fold(Outcomes(TranscriptLines(jsonlContent), Classifier(decode)))
  }

  /** Once a prefix has aborted, the whole fold fails with the same error. */
  lemma {:induction false} AbortPersists(outs: seq<LineOutcome>, j: nat)
    requires j <= |outs| && Fold(outs[..j]).Failure?
    ensures Fold(outs) == Fold(outs[..j])
    decreases |outs| - j
  {
    if j < |outs| {
      assert outs[..j + 1][..j] == outs[..j];
      AbortPersists(outs, j + 1);
    } else {
      assert outs[..j] == outs;
    }
  }

  /** One more line: a skip leaves the fold unchanged, a keep appends, an abort fails. */
  lemma FoldSnoc(outs: seq<LineOutcome>, i: nat)
    requires i < |outs|
    ensures outs[i].Skip? ==> Fold(outs[..i + 1]) == Fold(outs[..i])
    ensures outs[i].Keep? && Fold(outs[..i]).Success? ==>
              Fold(outs[..i + 1]) == Success(Fold(outs[..i]).value + [outs[i].message])
    ensures outs[i].Abort? && Fold(outs[..i]).Success? ==> Fold(outs[..i + 1]) == Failure(outs[i].error)
  {
    assert outs[..i + 1][..i] == outs[..i];
  }

  /**
   * The parser's loop: each line in turn is skipped, kept (its message
   * pushed) or aborts the whole parse.
   */
  method CollectMessages(lines: seq<string>, classify: string -> LineOutcome)
    returns (r: Result<seq<DisplayMessage>, ParseError>)
    ensures r == Fold(Outcomes(lines, classify))
  {
    ghost var outs := Outcomes(lines, classify);
    var messages: seq<DisplayMessage> := [];
    for i := 0 to |lines|
      invariant Fold(outs[..i]) == Success(messages)
    {
      FoldSnoc(outs, i);
      OutcomeAt(lines, classify, i);
      match classify(lines[i])
      case Skip =>
      case Keep(m) =>
        messages := messages + [m];
      case Abort(e) =>
        AbortPersists(outs, i + 1);
        return Failure(e);
    }
    assert outs[..|lines|] == outs;
    return Success(messages);
  }

  /** `parseTranscript`: trim the content, split it into lines and collect their messages. */
  method ParseTranscript(jsonlContent: string, decode: string -> Option<Json>)
    returns (r: Result<seq<DisplayMessage>, ParseError>)
    ensures r == ParseResult(jsonlContent, decode)
  {
    var lines := Split(JsTrim(jsonlContent), '\n');
    r := CollectMessages(lines, Classifier(decode));
  }

  // ---------------------------------------------------------------------
  // Properties of the parser
  // ---------------------------------------------------------------------

  /** A transcript parses exactly when none of its lines aborts. */
  lemma {:induction false} FoldSucceedsIff(outs: seq<LineOutcome>)
    ensures Fold(outs).Success? <==> forall i :: 0 <= i < |outs| ==> !outs[i].Abort?
    decreases |outs|
  {
    if outs != [] {
      var init := outs[..|outs| - 1];
      FoldSucceedsIff(init);
      assert forall i :: 0 <= i < |init| ==> init[i] == outs[i];
    }
  }

  /** A failed parse reports the error of the first aborting line. */
  lemma {:induction false} FoldFailsAtFirstAbort(outs: seq<LineOutcome>) returns (i: nat)
    requires Fold(outs).Failure?
    ensures i < |outs| && outs[i] == Abort(Fold(outs).error)
    ensures forall j :: 0 <= j < i ==> !outs[j].Abort?
    decreases |outs|
  {
    var init := outs[..|outs| - 1];
    assert forall j :: 0 <= j < |init| ==> init[j] == outs[j];
    if Fold(init).Failure? {
      i := FoldFailsAtFirstAbort(init);
    } else {
      i := |outs| - 1;
      FoldSucceedsIff(init);
    }
  }

  predicate IsKeep(o: LineOutcome) {
    o.Keep?
  }

  /** The messages of a sequence of Keep outcomes. */
  function Messages(kept: seq<LineOutcome>): (ms: seq<DisplayMessage>)
    requires forall i :: 0 <= i < |kept| ==> kept[i].Keep?
    ensures |ms| == |kept|
    ensures forall k :: 0 <= k < |kept| ==> ms[k] == kept[k].message
    decreases |kept|
  {
    if kept == [] then [] else [kept[0].message] + Messages(kept[1..])
  }

  /** The Keep outcomes among the line outcomes, in order. */
  function KeptOutcomes(outs: seq<LineOutcome>): (kept: seq<LineOutcome>)
    ensures forall i :: 0 <= i < |kept| ==> kept[i].Keep?
  {
    FilterAllPass(IsKeep, outs);
    Filter(IsKeep, outs)
  }

  lemma MessagesConcat(a: seq<LineOutcome>, b: seq<LineOutcome>)
    requires forall i :: 0 <= i < |a| ==> a[i].Keep?
    requires forall i :: 0 <= i < |b| ==> b[i].Keep?
    ensures Messages(a + b) == Messages(a) + Messages(b)
  {
    var ab := a + b;
    assert forall i :: 0 <= i < |ab| ==> ab[i].Keep?;
  }

  /** A successful parse yields exactly the messages of the kept lines, in line order. */
  lemma {:induction false} FoldValue(outs: seq<LineOutcome>)
    requires Fold(outs).Success?
    ensures Fold(outs).value == Messages(KeptOutcomes(outs))
    decreases |outs|
  {
    if outs != [] {
      var init := outs[..|outs| - 1];
      var last := outs[|outs| - 1];
      assert outs == init + [last];
      FoldValue(init);
      FilterConcat(IsKeep, init, [last]);
      MessagesConcat(KeptOutcomes(init), KeptOutcomes([last]));
    }
  }

  // ---------------------------------------------------------------------
  // Properties of one line
  // ---------------------------------------------------------------------

  /** A whitespace-only line contributes nothing. */
  lemma BlankLineSkipped(line: string, decode: string -> Option<Json>)
    requires JsTrim(line) == ""
    ensures ClassifyLine(line, decode) == Skip
  {
    JsBlankIff(line);
  }

  predicate IsMessageType(v: Json) {
    IsLiteral(v, "type", "user") || IsLiteral(v, "type", "assistant")
  }

  /** A decoded line of any other entry type is skipped without error. */
  lemma OtherTypeSkipped(line: string, decode: string -> Option<Json>)
    requires decode(line).Some? && !decode(line).value.JNull? && !IsMessageType(decode(line).value)
    ensures ClassifyLine(line, decode) == Skip
  {
  }

  /**
   * A non-blank line aborts the parse exactly when it is not JSON, is JSON
   * `null`, or is a user or assistant entry that fails its schema; the
   * error names the cause.
   */
  lemma AbortCauses(line: string, decode: string -> Option<Json>)
    ensures ClassifyLine(line, decode).Abort? <==>
              !JsBlank(line) &&
              (decode(line).None? || decode(line).value.JNull? ||
               (IsMessageType(decode(line).value) && !MessageEntrySchema(decode(line).value)))
    ensures ClassifyLine(line, decode).Abort? ==>
              ClassifyLine(line, decode).error ==
                (if decode(line).None? then InvalidJson(line)
                 else if decode(line).value.JNull? then NullEntry(line)
                 else SchemaMismatch(line))
  {
  }

  /**
   * A kept line is a user or assistant entry that satisfies its schema; its
   * message copies the entry's uuid and timestamp, takes its role from the
   * entry type, has non-blank content, and a user's string content is kept
   * verbatim while block content is the flattened text blocks.
   */
  lemma KeptMessageShape(line: string, decode: string -> Option<Json>)
    requires ClassifyLine(line, decode).Keep?
    ensures !JsBlank(line) && decode(line).Some?
    ensures var v := decode(line).value;
            var m := ClassifyLine(line, decode).message;
            && MessageEntrySchema(v)
            && m.uuid == StringOr(v, "uuid", "") && HasString(v, "uuid")
            && m.timestamp == StringOr(v, "timestamp", "") && HasString(v, "timestamp")
            && (m.role == UserRole <==> IsLiteral(v, "type", "user"))
            && (m.role == AssistantRole <==> IsLiteral(v, "type", "assistant"))
            && JsTrim(m.content) != ""
            && (m.role == UserRole && MessageContent(v).JStr? ==> m.content == MessageContent(v).s)
            && (MessageContent(v).JArr? ==> m.content == FlattenBlocks(MessageContent(v).items))
  {
    var m := ClassifyLine(line, decode).message;
    JsBlankIff(m.content);
  }

  /** A decoded user or assistant line that passes its schema is kept exactly when its flattened content is not blank. */
  lemma KeptWhenContentNonBlank(line: string, decode: string -> Option<Json>)
    requires !JsBlank(line) && decode(line).Some? && MessageEntrySchema(decode(line).value)
    ensures var v := decode(line).value;
            var content := if IsLiteral(v, "type", "user") then FlattenUserContent(MessageContent(v))
                           else FlattenBlocks(MessageContent(v).items);
            ClassifyLine(line, decode).Keep? <==> JsTrim(content) != ""
  {
    var v := decode(line).value;
    var content := if IsLiteral(v, "type", "user") then FlattenUserContent(MessageContent(v))
                   else FlattenBlocks(MessageContent(v).items);
    JsBlankIff(content);
  }

  // ---------------------------------------------------------------------
  // Properties of a whole transcript
  // ---------------------------------------------------------------------

  /** The parse of a transcript succeeds exactly when none of its lines aborts. */
  lemma ParseSucceedsIff(jsonlContent: string, decode: string -> Option<Json>)
    ensures var lines := TranscriptLines(jsonlContent);
            ParseResult(jsonlContent, decode).Success? <==>
              forall i :: 0 <= i < |lines| ==> !ClassifyLine(lines[i], decode).Abort?
  {
    var lines := TranscriptLines(jsonlContent);
    var outs := Outcomes(lines, Classifier(decode));
    FoldSucceedsIff(outs);
    forall i | 0 <= i < |lines|
      ensures outs[i] == ClassifyLine(lines[i], decode)
    {
      OutcomeAt(lines, Classifier(decode), i);
    }
  }

  /** A failed parse reports the error of the first aborting line of the transcript. */
  lemma ParseFailsAtFirstAbort(jsonlContent: string, decode: string -> Option<Json>) returns (i: nat)
    requires ParseResult(jsonlContent, decode).Failure?
    ensures var lines := TranscriptLines(jsonlContent);
            && i < |lines|
            && ClassifyLine(lines[i], decode) == Abort(ParseResult(jsonlContent, decode).error)
            && forall j :: 0 <= j < i ==> !ClassifyLine(lines[j], decode).Abort?
  {
    var lines := TranscriptLines(jsonlContent);
    var outs := Outcomes(lines, Classifier(decode));
    i := FoldFailsAtFirstAbort(outs);
    OutcomeAt(lines, Classifier(decode), i);
    forall j | 0 <= j < i
      ensures outs[j] == ClassifyLine(lines[j], decode)
    {
      OutcomeAt(lines, Classifier(decode), j);
    }
  }

  /**
   * The messages of a successful parse are the kept lines' messages in line
   * order: `idx` lists the kept lines, increasing, and no kept line is
   * missing.
   */
  lemma ParseMessagesInOrder(jsonlContent: string, decode: string -> Option<Json>) returns (idx: seq<nat>)
    requires ParseResult(jsonlContent, decode).Success?
    ensures var lines := TranscriptLines(jsonlContent);
            var ms := ParseResult(jsonlContent, decode).value;
            && |idx| == |ms| && IncreasingIndices(idx, lines)
            && (forall k :: 0 <= k < |idx| ==> ClassifyLine(lines[idx[k]], decode) == Keep(ms[k]))
            && (forall i :: 0 <= i < |lines| && ClassifyLine(lines[i], decode).Keep? ==> i in idx)
  {
    var lines := TranscriptLines(jsonlContent);
    var outs := Outcomes(lines, Classifier(decode));
    FoldValue(outs);
    idx := FilterIsSubsequence(IsKeep, outs);
    forall i | 0 <= i < |lines|
      ensures outs[i] == ClassifyLine(lines[i], decode)
    {
      OutcomeAt(lines, Classifier(decode), i);
    }
  }

  /** A line that may yield a message: non-blank and decoding to a user or assistant entry. */
  predicate IsMessageLine(line: string, decode: string -> Option<Json>) {
    !JsBlank(line) && decode(line).Some? && IsMessageType(decode(line).value)
  }

  function MessageLineTest(decode: string -> Option<Json>): string -> bool {
    line => IsMessageLine(line, decode)
  }

  function KeepTest(classify: string -> LineOutcome): string -> bool {
    line => classify(line).Keep?
  }

  lemma {:induction false} KeptCount(lines: seq<string>, classify: string -> LineOutcome)
    ensures |Filter(IsKeep, Outcomes(lines, classify))| == |Filter(KeepTest(classify), lines)|
    decreases |lines|
  {
    if lines != [] {
      KeptCount(lines[1..], classify);
      assert Outcomes(lines, classify)[1..] == Outcomes(lines[1..], classify);
    }
  }

  /** A transcript yields at most one message per user or assistant line. */
  lemma MessageCountBound(jsonlContent: string, decode: string -> Option<Json>)
    requires ParseResult(jsonlContent, decode).Success?
    ensures |ParseResult(jsonlContent, decode).value| <=
              |Filter(MessageLineTest(decode), TranscriptLines(jsonlContent))|
  {
    var lines := TranscriptLines(jsonlContent);
    var classify := Classifier(decode);
    FoldValue(Outcomes(lines, classify));
    KeptCount(lines, classify);
    forall line | KeepTest(classify)(line)
      ensures MessageLineTest(decode)(line)
    {
      KeptMessageShape(line, decode);
    }
    FilterMonotone(KeepTest(classify), MessageLineTest(decode), lines);
  }

  /** Whitespace-only content is an empty transcript. */
  lemma BlankTranscript(jsonlContent: string, decode: string -> Option<Json>)
    requires JsTrim(jsonlContent) == ""
    ensures ParseResult(jsonlContent, decode) == Success([])
  {
    assert TranscriptLines(jsonlContent) == [""];
    JsBlankIff("");
    var classify := Classifier(decode);
    assert classify("") == ClassifyLine("", decode) == Skip;
    assert Outcomes([""], classify) == [classify("")] + Outcomes([], classify) == [Skip];
    assert [Skip][..0] == [];
  }

  // ---------------------------------------------------------------------
  // Choosing the transcript file of a gist
  // ---------------------------------------------------------------------

  datatype GistFile = GistFile(filename: string, rawUrl: string)

  /** The first file, in listing order, whose name ends in `.jsonl`. */
  function FindJsonlFile(files: seq<GistFile>): (r: Result<GistFile, string>)
    ensures r.Success? ==> exists i :: 0 <= i < |files| && files[i] == r.value
    ensures r.Success? ==> EndsWith(r.value.filename, ".jsonl")
    decreases |files|
  {
    if files == [] then Failure("No .jsonl file found in gist")
    else if EndsWith(files[0].filename, ".jsonl") then Success(files[0])
    else FindJsonlFile(files[1..])
  }

  /**
   * The chosen file is the first `.jsonl` one, and the error is returned
   * exactly when there is none.
   */
  lemma {:induction false} FindJsonlFileIsFirst(files: seq<GistFile>)
    ensures FindJsonlFile(files).Failure? <==> forall i :: 0 <= i < |files| ==> !EndsWith(files[i].filename, ".jsonl")
    ensures FindJsonlFile(files).Failure? ==> FindJsonlFile(files).error == "No .jsonl file found in gist"
    ensures FindJsonlFile(files).Success? ==>
              exists i :: 0 <= i < |files| && files[i] == FindJsonlFile(files).value &&
                forall j :: 0 <= j < i ==> !EndsWith(files[j].filename, ".jsonl")
    decreases |files|
  {
    if files != [] && !EndsWith(files[0].filename, ".jsonl") {
      FindJsonlFileIsFirst(files[1..]);
      assert forall i :: 1 <= i < |files| ==> files[i] == files[1..][i - 1];
      if FindJsonlFile(files).Success? {
        var i :| 0 <= i < |files[1..]| && files[1..][i] == FindJsonlFile(files).value &&
                 forall j :: 0 <= j < i ==> !EndsWith(files[1..][j].filename, ".jsonl");
        assert files[i + 1] == FindJsonlFile(files).value;
        assert forall j :: 0 <= j < i + 1 ==> !EndsWith(files[j].filename, ".jsonl");
      }
    } else if files != [] {
      assert files[0] == FindJsonlFile(files).value;
    }
  }
}
