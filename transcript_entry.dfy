/**
 * The normalised transcript vocabulary of the session viewer: content
 * blocks, tool calls (generic, Read, Edit), structured entries, message and
 * meta entries, and the type guards over them.
 */
module TranscriptEntry {
  import opened Wrappers
  import opened Json
  import opened Strings

  // ---------------------------------------------------------------------
  // Content blocks
  // ---------------------------------------------------------------------

  /** An image's source; its `type` is always the literal "base64". */
  datatype ImageSource = ImageSource(mediaType: string, data: string)

  /** What a tool result may hold: text or an image. */
  datatype ToolResultContentItem =
    | ResultText(text: string)
    | ResultImage(source: ImageSource)

  /** All content-block variants; users send text, image and tool_result, the assistant text, tool_use and thinking. */
  datatype ContentBlock =
    | TextBlock(text: string)
    | ImageBlock(source: ImageSource)
    | ToolUseBlock(id: string, name: string, input: map<string, Json>)
    | ThinkingBlock(thinking: string)
    | ToolResultBlock(toolUseId: string, content: seq<ToolResultContentItem>)
  {
    /** The block's `type` discriminator. */
    function Type(): string {
      match this
      case TextBlock(_) => "text"
      case ImageBlock(_) => "image"
      case ToolUseBlock(_, _, _) => "tool_use"
      case ThinkingBlock(_) => "thinking"
      case ToolResultBlock(_, _) => "tool_result"
    }
  }

  predicate IsUserContentBlock(b: ContentBlock) {
    b.TextBlock? || b.ImageBlock? || b.ToolResultBlock?
  }

  predicate IsAssistantContentBlock(b: ContentBlock) {
    b.TextBlock? || b.ToolUseBlock? || b.ThinkingBlock?
  }

  /** Each discriminator names exactly one variant. */
  lemma BlockTypeDetermined(a: ContentBlock, b: ContentBlock)
    requires a.Type() == b.Type()
    ensures a.TextBlock? == b.TextBlock? && a.ImageBlock? == b.ImageBlock?
    ensures a.ToolUseBlock? == b.ToolUseBlock? && a.ThinkingBlock? == b.ThinkingBlock?
    ensures a.ToolResultBlock? == b.ToolResultBlock?
  {
  }

  // ---------------------------------------------------------------------
  // Tool calls
  // ---------------------------------------------------------------------

  datatype ReadToolInput = ReadToolInput(filePath: string, offset: Option<int>, limit: Option<int>)

  datatype EditToolInput = EditToolInput(filePath: string, oldString: string, newString: string, replaceAll: bool)

  datatype EditToolPatchHunk = EditToolPatchHunk(oldStart: int, oldLines: int, newStart: int, newLines: int, lines: seq<string>)

  datatype EditToolResult = EditToolResult(
    filePath: string,
    oldString: string,
    newString: string,
    originalFile: string,
    structuredPatch: seq<EditToolPatchHunk>,
    userModified: bool,
    replaceAll: bool)

  /**
   * A tool invocation and, once correlated, its result. Read and Edit calls
   * carry a validated input; every other call, and any Read or Edit call whose
   * input did not validate, is generic.
   */
  datatype ToolCall =
    | GenericToolCall(id: string, toolName: string, input: map<string, Json>,
                      result: Option<seq<ToolResultContentItem>>, rawToolUseResult: Option<Json>)
    | ReadToolCall(id: string, readInput: ReadToolInput,
                   result: Option<seq<ToolResultContentItem>>, rawToolUseResult: Option<Json>)
    | EditToolCall(id: string, editInput: EditToolInput,
                   result: Option<seq<ToolResultContentItem>>, rawToolUseResult: Option<Json>,
                   toolUseResult: Option<EditToolResult>)
  {
    /** The `kind` discriminator. */
    function Kind(): string {
      match this
      case GenericToolCall(_, _, _, _, _) => "generic"
      case ReadToolCall(_, _, _, _) => "read"
      case EditToolCall(_, _, _, _, _) => "edit"
    }

    /** The tool `name`: fixed for Read and Edit calls. */
    function Name(): string {
      match this
      case GenericToolCall(_, n, _, _, _) => n
      case ReadToolCall(_, _, _, _) => "Read"
      case EditToolCall(_, _, _, _, _) => "Edit"
    }
  }

  /** A Read call's input as the object the source holds. */
  function ReadInputObject(i: ReadToolInput): map<string, Json> {
    map["file_path" := JStr(i.filePath)]
    + (if i.offset.Some? then map["offset" := JNum(i.offset.value)] else map[])
    + (if i.limit.Some? then map["limit" := JNum(i.limit.value)] else map[])
  }

  /** An Edit call's input as the object the source holds. */
  function EditInputObject(i: EditToolInput): map<string, Json> {
    map["file_path" := JStr(i.filePath), "old_string" := JStr(i.oldString),
        "new_string" := JStr(i.newString), "replace_all" := JBool(i.replaceAll)]
  }

  /** `toolCall.input`, whatever the variant. */
  function InputObject(t: ToolCall): map<string, Json> {
    match t
    case GenericToolCall(_, _, input, _, _) => input
    case ReadToolCall(_, i, _, _) => ReadInputObject(i)
    case EditToolCall(_, i, _, _, _) => EditInputObject(i)
  }

  predicate IsReadToolCall(t: ToolCall) {
    t.Kind() == "read"
  }

  predicate IsEditToolCall(t: ToolCall) {
    t.Kind() == "edit"
  }

  /** The guards recognise exactly their own variant, so at most one of them holds. */
  lemma ToolCallGuards(t: ToolCall)
    ensures IsReadToolCall(t) <==> t.ReadToolCall?
    ensures IsEditToolCall(t) <==> t.EditToolCall?
    ensures !(IsReadToolCall(t) && IsEditToolCall(t))
  {
  }

  /** A Read call is named "Read" and an Edit call "Edit"; a generic call keeps the name it was given. */
  lemma ToolCallNames(t: ToolCall)
    ensures IsReadToolCall(t) ==> t.Name() == "Read"
    ensures IsEditToolCall(t) ==> t.Name() == "Edit"
    ensures t.GenericToolCall? ==> t.Name() == t.toolName
  {
  }

  /**
   * The last `/`-separated piece of a path, `filePath.split('/').pop()`: the
   * longest suffix without a slash, which is the whole path when there is none.
   */
  function ExtractFileName(filePath: string): (r: string)
    ensures '/' !in r
    ensures EndsWith(filePath, r)
    ensures '/' in filePath ==> |r| < |filePath| && filePath[|filePath| - |r| - 1] == '/'
    ensures '/' !in filePath ==> r == filePath
  {
    LastSegment(filePath, '/')
  }

  // ---------------------------------------------------------------------
  // Structured entries and transcript entries
  // ---------------------------------------------------------------------

  datatype StructuredEntry =
    | UserStructuredEntry(content: seq<ContentBlock>, isToolResultOnly: Option<bool>)
    | AssistantStructuredEntry(text: string, thinkingContent: Option<string>, hasToolUse: bool,
                               hasThinking: bool, toolCalls: Option<seq<ToolCall>>)
    | ProgressStructuredEntry(progressType: string, toolUseID: Option<string>,
                              parentToolUseID: Option<string>, agentId: Option<string>)
    | SystemStructuredEntry(subtype: string, durationMs: Option<int>)
  {
    /** The `kind` discriminator. */
    function Kind(): string {
      match this
      case UserStructuredEntry(_, _) => "user"
      case AssistantStructuredEntry(_, _, _, _, _) => "assistant"
      case ProgressStructuredEntry(_, _, _, _) => "progress"
      case SystemStructuredEntry(_, _) => "system"
    }
  }

  datatype MessageType = UserType | AssistantType | ProgressType | SystemType

  datatype MetaType = FileHistorySnapshot | QueueOperation | Summary

  /** One transcript line: a message entry with a uuid, or a bookkeeping meta entry. */
  datatype TranscriptEntry =
    | MessageEntry(uuid: string, timestamp: string, messageType: MessageType, raw: Json,
                   structuredEntry: StructuredEntry)
    | MetaEntry(metaTimestamp: Option<string>, metaType: MetaType, raw: Json)

  /** The property names the entry object carries. */
  function Keys(e: TranscriptEntry): set<string> {
    match e
    case MessageEntry(_, _, _, _, _) => {"uuid", "timestamp", "type", "raw", "structuredEntry"}
    case MetaEntry(ts, _, _) => {"type", "raw"} + (if ts.Some? then {"timestamp"} else {})
  }

  /** `'uuid' in entry`. */
  predicate IsMessageEntry(e: TranscriptEntry) {
    "uuid" in Keys(e)
  }

  /**
   * User entries unless they hold only tool results (an absent flag counts
   * as displayable), and assistant entries.
   */
  predicate IsDisplayableEntry(e: TranscriptEntry) {
    if !IsMessageEntry(e) then false
    else if e.structuredEntry.Kind() == "user" then e.structuredEntry.isToolResultOnly != Some(true)
    else e.structuredEntry.Kind() == "assistant"
  }

  /** The uuid test tells message entries apart: meta entries never carry a uuid. */
  lemma MessageEntryGuard(e: TranscriptEntry)
    ensures IsMessageEntry(e) <==> e.MessageEntry?
    ensures e.MetaEntry? ==> "uuid" !in Keys(e)
  {
  }

  /** Which entries the conversation view shows. */
  lemma DisplayableEntries(e: TranscriptEntry)
    ensures e.MetaEntry? ==> !IsDisplayableEntry(e)
    ensures e.MessageEntry? && e.structuredEntry.UserStructuredEntry? ==>
              (IsDisplayableEntry(e) <==> e.structuredEntry.isToolResultOnly != Some(true))
    ensures e.MessageEntry? && e.structuredEntry.UserStructuredEntry? && e.structuredEntry.isToolResultOnly.None? ==>
              IsDisplayableEntry(e)
    ensures e.MessageEntry? && e.structuredEntry.AssistantStructuredEntry? ==> IsDisplayableEntry(e)
    ensures e.MessageEntry? && (e.structuredEntry.ProgressStructuredEntry? || e.structuredEntry.SystemStructuredEntry?) ==>
              !IsDisplayableEntry(e)
  {
  }

  /** A displayable entry is a user or assistant message entry. */
  lemma DisplayableIsConversation(e: TranscriptEntry)
    requires IsDisplayableEntry(e)
    ensures e.MessageEntry?
    ensures e.structuredEntry.UserStructuredEntry? || e.structuredEntry.AssistantStructuredEntry?
  {
  }
}
