# Session-share transcript viewer and tooling, modelled in Dafny

This project models the core of *session-share*, a tool that publishes transcripts of AI coding-assistant sessions as gists and shows them in a web viewer. The model has three parts.

- **The viewer's transcript pipeline.**
  - `gistGateway.ts` picks the `.jsonl` file of a gist and turns each line of it into a displayable message or a fatal error.
  - `transcriptEntry.ts` holds the entry and tool-call vocabulary, its type guards and `extractFileName`.
- **The viewer's formatters.** These are the pure text behind the cards:
  - the Read header (both copies of `ReadToolCallEntry.tsx`);
  - the generic tool summary (`ToolCallEntry.tsx`);
  - the Edit card's unified diff and title (`EditToolCallEntry.tsx`);
  - the user card's visible blocks (`UserMessage.tsx`);
  - the tool-result items (`ToolResultContent.tsx`);
  - the session header's duration and resume command (`SessionMetadataHeader.tsx`).
- **The Python tooling.**
  - `check_version.py` is the plugin's update check.
  - `fetch_gist_samples.py` discovers transcript gists, analyses their JSONL files and writes a Markdown index.

Layout, one module per source file:
- shared modules:
  - `Wrappers`: `Option` and `Result`;
  - `Json`: a JSON value type;
  - `Strings`: split, join, trim and decimal rendering, with their laws;
  - `Seqs`: filter, subsequences and tuple order;
- `GistGateway`, `TranscriptEntry`, `ReadToolHeader`, `ToolCallSummary`, `EditToolDiff`, `UserMessage`, `ToolResultContent`, `SessionMetadataHeader`;
- `CheckVersion`;
- `TranscriptAnalysis` and `GistSamples`, for `fetch_gist_samples.py`.

Which parts are imperative:
- Loops in the source are methods with loop invariants, each proved against a specification function:
  - `GistGateway.ParseTranscript` and `GistGateway.CollectMessages`;
  - `EditToolDiff.GenerateUnifiedDiff`;
  - `TranscriptAnalysis.AnalyzeTranscript` and its helpers;
  - `GistSamples.ProcessGist` and `GistSamples.BuildIndexMd`.
- The rest of the source consists of expressions, so it is modelled as functions and lemmas.

These are parameters, not modelled code:
- the JSON text grammar: `decode` gives the value, or `None` when `JSON.parse` / `json.loads` raises;
- reading files: `read` gives a file's lines;
- the network;
- the clock: `generatedAt` is an input.

## Behaviour of the code worth knowing

- **Schema mismatches abort.** `parseTranscript` calls `MessageEntrySchema.parse`, which throws. So a `user`/`assistant` line that fails its schema aborts the whole parse instead of being dropped (`GistGateway.AbortCauses`).
- **No comment lines.** `parseTranscript` has no rule for `//` lines: such a line reaches `JSON.parse`, and the parse fails (`InvalidJson`).
- **Other entry types are skipped.** `parseTranscript` skips every type other than `user` and `assistant` (`GistGateway.OtherTypeSkipped`). A line whose JSON value is `null` aborts, because reading `.type` of `null` throws.
- **No image blocks in user lines.** The gateway's user schema admits only `text` and `tool_result` blocks, so a user line with an image block aborts (`GistGateway.UserBlockRejections`).
- **User `sessionId`.** The gateway's user schema requires `sessionId` (`GistGateway.UserEntryNeedsSessionId`).

## Model

| member | source | states |
|---|---|---|
| GistGateway.UserEntryNeedsSessionId | session-viewer/src/lib/gistGateway.ts:52-62 | a `user` entry without `sessionId` fails the message schema |
| GistGateway.UserBlockRejections | session-viewer/src/lib/gistGateway.ts:30-45 | an image block is not a user content block; a tool_result block whose content is neither a string nor a list of text blocks is not one either |
| GistGateway.MessageEntrySchema | session-viewer/src/lib/gistGateway.ts:76-79 | only a `user` or an `assistant` entry can pass the message schema |
| GistGateway.Texts | session-viewer/src/lib/gistGateway.ts:108 | one text per block, in order, the block's `text` field |
| GistGateway.FlattenSkipsNonText | session-viewer/src/lib/gistGateway.ts:103-109 | removing a non-text block from the content does not change the flattened text |
| GistGateway.TextFieldsInOrder | session-viewer/src/lib/gistGateway.ts:103-109 | the flattened pieces are exactly the text blocks' `text` fields, in source order, none left out |
| GistGateway.FlattenSingleText | session-viewer/src/lib/gistGateway.ts:119-122 | a single text block flattens to its own text |
| GistGateway.FlattenBlocks | session-viewer/src/lib/gistGateway.ts:119-122 | content without a text block flattens to the empty text; TextFieldsInOrder gives the pieces |
| GistGateway.FlattenUserContent | session-viewer/src/lib/gistGateway.ts:100-109 | string content is taken as is and block content is flattened; KeptMessageShape states it for kept lines |
| GistGateway.TranscriptLines | session-viewer/src/lib/gistGateway.ts:84 | the trimmed text splits into at least one line, none holding a newline |
| GistGateway.ClassifyLine | session-viewer/src/lib/gistGateway.ts:88-97 | a blank line is skipped; a non-blank line that does not decode aborts with `InvalidJson`; a kept line has non-blank content |
| GistGateway.ClassifyEntry | session-viewer/src/lib/gistGateway.ts:92-131 | a decoded line aborts with `NullEntry` iff it is `null`; a kept line passed the schema, has non-blank content, and is a user message iff its type is `user` |
| GistGateway.KeepNonBlank | session-viewer/src/lib/gistGateway.ts:110-131 | a message is kept iff its content is not blank, with the given role and that content |
| GistGateway.OutcomeAt | session-viewer/src/lib/gistGateway.ts:87 | outcome k is the classification of line k |
| GistGateway.AbortPersists | session-viewer/src/lib/gistGateway.ts:90-97 | once a prefix has failed, the later lines cannot change the result |
| GistGateway.FoldSnoc | session-viewer/src/lib/gistGateway.ts:87-132 | a skipped line leaves the messages alone; a kept line appends its message; an aborting line turns success into that error |
| GistGateway.CollectMessages | session-viewer/src/lib/gistGateway.ts:85-135 | the loop's result equals the fold of the line outcomes |
| GistGateway.ParseTranscript | session-viewer/src/lib/gistGateway.ts:83-136 | the method computes the specified parse result of the whole text |
| GistGateway.ParseResult | session-viewer/src/lib/gistGateway.ts:83-136 | the fold of the line outcomes; ParseSucceedsIff, ParseFailsAtFirstAbort and ParseMessagesInOrder state what it gives |
| GistGateway.FoldSucceedsIff | session-viewer/src/lib/gistGateway.ts:90-97 | the fold succeeds exactly when no outcome aborts |
| GistGateway.FoldFailsAtFirstAbort | session-viewer/src/lib/gistGateway.ts:90-97 | a failed fold reports the error of the first aborting line, and no earlier line aborts |
| GistGateway.Messages | session-viewer/src/lib/gistGateway.ts:111-130 | one message per kept outcome, in order |
| GistGateway.KeptOutcomes | session-viewer/src/lib/gistGateway.ts:110-131 | only kept outcomes are selected |
| GistGateway.MessagesConcat | session-viewer/src/lib/gistGateway.ts:111-130 | messages of concatenated outcomes concatenate |
| GistGateway.FoldValue | session-viewer/src/lib/gistGateway.ts:85-135 | a successful fold is exactly the messages of the kept lines, in order |
| GistGateway.BlankLineSkipped | session-viewer/src/lib/gistGateway.ts:88 | a line that trims to nothing is skipped |
| GistGateway.OtherTypeSkipped | session-viewer/src/lib/gistGateway.ts:92-95 | a decoded non-null line whose `type` is neither user nor assistant is skipped |
| GistGateway.AbortCauses | session-viewer/src/lib/gistGateway.ts:88-97 | a line aborts iff it is non-blank and is invalid JSON, is `null`, or is a user/assistant line failing the schema; the error names which |
| GistGateway.KeptMessageShape | session-viewer/src/lib/gistGateway.ts:97-131 | a kept line passed the schema; its message carries the entry's uuid, timestamp and role, and non-blank content that is the string content or the flattened text blocks |
| GistGateway.KeptWhenContentNonBlank | session-viewer/src/lib/gistGateway.ts:110-131 | a valid message line is kept iff its flattened content is not blank |
| GistGateway.ParseSucceedsIff | session-viewer/src/lib/gistGateway.ts:83-136 | parsing succeeds exactly when no line of the trimmed, split text aborts |
| GistGateway.ParseFailsAtFirstAbort | session-viewer/src/lib/gistGateway.ts:83-136 | a failed parse carries the error of the first aborting line |
| GistGateway.ParseMessagesInOrder | session-viewer/src/lib/gistGateway.ts:83-136 | the messages come from increasing line positions, one per kept line, none left out |
| GistGateway.KeptCount | session-viewer/src/lib/gistGateway.ts:87-132 | the number of kept outcomes is the number of lines the classifier keeps |
| GistGateway.MessageCountBound | session-viewer/src/lib/gistGateway.ts:92-95 | a parse has no more messages than there are user/assistant lines |
| GistGateway.BlankTranscript | session-viewer/src/lib/gistGateway.ts:84-88 | an all-blank transcript parses to no messages |
| GistGateway.FindJsonlFile | session-viewer/src/lib/gistGateway.ts:148-154 | a found file is one of the gist's files and ends in `.jsonl` |
| GistGateway.FindJsonlFileIsFirst | session-viewer/src/lib/gistGateway.ts:148-154 | the search fails, with the source's message, iff no file ends in `.jsonl`; otherwise it gives the first such file |
| TranscriptEntry.BlockTypeDetermined | session-viewer/src/domain/transcriptEntry.ts:4-41 | a content block's `type` tag decides its variant |
| TranscriptEntry.IsReadToolCall | session-viewer/src/domain/transcriptEntry.ts:106-108 | the `kind === "read"` test; ToolCallGuards states it holds exactly for read calls |
| TranscriptEntry.IsEditToolCall | session-viewer/src/domain/transcriptEntry.ts:110-112 | the `kind === "edit"` test; ToolCallGuards states it holds exactly for edit calls |
| TranscriptEntry.ToolCallGuards | session-viewer/src/domain/transcriptEntry.ts:106-112 | `isReadToolCall` / `isEditToolCall` hold exactly for the read and edit variants, never both |
| TranscriptEntry.ToolCallNames | session-viewer/src/domain/transcriptEntry.ts:47-104 | a read call is named Read, an edit call Edit, a generic call by its own name |
| TranscriptEntry.ExtractFileName | session-viewer/src/domain/transcriptEntry.ts:114-116 | the file name has no `/`, is a suffix of the path that follows a `/` when there is one, and is the whole path otherwise |
| TranscriptEntry.IsMessageEntry | session-viewer/src/domain/transcriptEntry.ts:184-186 | the `"uuid" in entry` test; MessageEntryGuard states it holds exactly for message entries |
| TranscriptEntry.IsDisplayableEntry | session-viewer/src/domain/transcriptEntry.ts:191-200 | the displayability test; DisplayableEntries and DisplayableIsConversation state which entries pass |
| TranscriptEntry.MessageEntryGuard | session-viewer/src/domain/transcriptEntry.ts:184-186 | `isMessageEntry` holds exactly for message entries; meta entries have no `uuid` |
| TranscriptEntry.DisplayableEntries | session-viewer/src/domain/transcriptEntry.ts:191-200 | meta entries are not displayable; user entries are unless tool-result-only; assistant entries are; progress and system entries are not |
| TranscriptEntry.DisplayableIsConversation | session-viewer/src/domain/transcriptEntry.ts:191-200 | a displayable entry is a user or assistant message entry |
| ReadToolHeader.FormatReadToolHeader | session-viewer/src/components/message-cards/tool-calls/ReadToolCallEntry.tsx:8-24 | the four branches of the header; HeaderShape and HeaderParts state what it gives |
| ReadToolHeader.RangeSuffix | session-viewer/src/components/message-cards/tool-calls/ReadToolCallEntry.tsx:13-23 | no suffix exactly for the whole file; otherwise " (" … ")" |
| ReadToolHeader.HeaderShape | session-viewer/src/components/message-cards/tool-calls/ReadToolCallEntry.tsx:8-24 | the header starts with "Read " and the file name; it is exactly that iff neither offset nor limit is given, and otherwise goes on with " (" and ends with ")" |
| ReadToolHeader.HeaderParts | session-viewer/src/components/message-cards/tool-calls/ReadToolCallEntry.tsx:8-24 | the header is "Read ", the file name, and the suffix of the announced line range |
| ReadToolHeader.HeaderSpanParts | session-viewer/src/components/message-cards/tool-calls/ReadToolCallEntry.tsx:13-15 | with offset and limit, the range is offset to offset+limit-1 |
| ReadToolHeader.HeaderFromParts | session-viewer/src/components/message-cards/tool-calls/ReadToolCallEntry.tsx:16-17 | with an offset only, the header reads "from line" offset |
| ReadToolHeader.HeaderLimitParts | session-viewer/src/components/message-cards/tool-calls/ReadToolCallEntry.tsx:18-20 | with a limit only, the range is 0 to limit-1 |
| ReadToolHeader.ParseSpanRoundTrip | session-viewer/src/components/message-cards/tool-calls/ReadToolCallEntry.tsx:15 | "a-b" reads back as the span from a to b, negative numbers included |
| ReadToolHeader.RangeTextRoundTrip | session-viewer/src/components/message-cards/tool-calls/ReadToolCallEntry.tsx:13-20 | every announced range's words read back as that range |
| ReadToolHeader.RangeTextHasNoParen | session-viewer/src/components/message-cards/tool-calls/ReadToolCallEntry.tsx:13-20 | a range's words contain no `(` |
| ReadToolHeader.ParseNameWithWords | session-viewer/src/components/message-cards/tool-calls/ReadToolCallEntry.tsx:15-20 | a name followed by a parenthesised range splits back into that name and range |
| ReadToolHeader.ParseNameWithRange | session-viewer/src/components/message-cards/tool-calls/ReadToolCallEntry.tsx:15-20 | a name with a range suffix reads back as that name and range |
| ReadToolHeader.ParseNameAndRange | session-viewer/src/components/message-cards/tool-calls/ReadToolCallEntry.tsx:8-24 | "Read " + name + suffix reads back as the name and the range |
| ReadToolHeader.HeaderRoundTrip | session-viewer/src/components/message-cards/tool-calls/ReadToolCallEntry.tsx:8-24 | the header reads back as the file name and the announced range |
| ReadToolHeader.HeaderStartsWithFileName | session-viewer/src/components/tool-calls/ReadToolCallEntry.tsx:7-23 | every header starts with "Read " and the file name |
| ReadToolHeader.ZeroCountsAsGiven | session-viewer/src/components/tool-calls/ReadToolCallEntry.tsx:12-19 | a given offset or limit, zero included, always adds a range suffix (the tests are `!== undefined`) |
| ReadToolHeader.ZeroOffsetIndistinguishable | session-viewer/src/components/tool-calls/ReadToolCallEntry.tsx:12-19 | offset 0 with a limit gives the same header as the limit alone |
| ReadToolHeader.ExampleSuffixes | session-viewer/src/components/message-cards/tool-calls/ReadToolCallEntry.tsx:13-20 | the suffixes for the spans 5-9 and 0-9 |
| ReadToolHeader.SpanExample | session-viewer/src/components/message-cards/tool-calls/ReadToolCallEntry.tsx:13-15 | offset 5 and limit 5 announce lines 5-9 |
| ReadToolHeader.LimitExample | session-viewer/src/components/message-cards/tool-calls/ReadToolCallEntry.tsx:18-20 | limit 10 alone announces lines 0-9 |
| ToolCallSummary.NumField | session-viewer/src/components/ToolCallEntry.tsx:13-14 | a numeric field is present exactly when its key is |
| ToolCallSummary.GetReadSummary | session-viewer/src/components/ToolCallEntry.tsx:9-25 | the summary is always one parenthesised call, starting "Read(" and ending ")" |
| ToolCallSummary.ReadSummaryParts | session-viewer/src/components/ToolCallEntry.tsx:9-25 | an empty path gives "Read(?)"; otherwise "Read(" + path + range words + ")" |
| ToolCallSummary.OffsetAloneIgnored | session-viewer/src/components/ToolCallEntry.tsx:16-24 | without a limit, the offset does not change the summary |
| ToolCallSummary.SummaryAgainstHeader | session-viewer/src/components/ToolCallEntry.tsx:16-24 | the summary's range agrees with the Read header's for offset+limit; for a limit alone it is one line later at both ends (1-based against 0-based); without a limit it is the whole file, where the header names the offset |
| ToolCallSummary.GetToolSummary | session-viewer/src/components/ToolCallEntry.tsx:31-39 | a call not named Read shows its name; a call named Read shows the Read summary of its input, one "Read(" … ")" call |
| ToolCallSummary.ReadCallsAreTyped | session-viewer/src/components/ToolCallEntry.tsx:10-14 | a read call's input has the field types the summary's casts assume |
| ToolCallSummary.ReadInputReadsBack | session-viewer/src/components/ToolCallEntry.tsx:10-14 | the summary reads back exactly the Read call's path, offset and limit from its input object |
| ToolCallSummary.ShowsInput | session-viewer/src/components/ToolCallEntry.tsx:49-70 | the input section is drawn iff the call is not named Read; CardSections states it per variant |
| ToolCallSummary.ShowsResult | session-viewer/src/components/ToolCallEntry.tsx:47-78 | the result section is drawn iff a result is attached |
| ToolCallSummary.CardSections | session-viewer/src/components/ToolCallEntry.tsx:47-78 | Read calls hide the input section, Edit calls show it, and the result section is shown iff there is a result |
| EditToolDiff.UnifiedDiff | session-viewer/src/components/message-cards/tool-calls/EditToolCallEntry.tsx:19-31 | the diff is empty iff there is no tool result, and otherwise starts with the `---`/`+++` header of its file path |
| EditToolDiff.HunkHeader | session-viewer/src/components/message-cards/tool-calls/EditToolCallEntry.tsx:26 | a hunk's range line with its line end is exactly one line |
| EditToolDiff.GenerateUnifiedDiff | session-viewer/src/components/message-cards/tool-calls/EditToolCallEntry.tsx:19-31 | the loop builds the specified diff text of the tool result |
| EditToolDiff.DiffSnoc | session-viewer/src/components/message-cards/tool-calls/EditToolCallEntry.tsx:25-28 | each loop step appends one hunk's text |
| EditToolDiff.HunksTextConcat | session-viewer/src/components/message-cards/tool-calls/EditToolCallEntry.tsx:25-28 | the text of concatenated hunks is the concatenated texts |
| EditToolDiff.DiffStartsWithHeader | session-viewer/src/components/message-cards/tool-calls/EditToolCallEntry.tsx:23 | a diff begins with the `---`/`+++` header of the result's file path |
| EditToolDiff.DiffEmptyIff | session-viewer/src/components/message-cards/tool-calls/EditToolCallEntry.tsx:20 | the diff is empty iff there is no tool result |
| EditToolDiff.TerminatedConcat | session-viewer/src/components/message-cards/tool-calls/EditToolCallEntry.tsx:26-27 | newline-terminated lines of a concatenation concatenate |
| EditToolDiff.TerminatedIsJoin | session-viewer/src/components/message-cards/tool-calls/EditToolCallEntry.tsx:27 | newline-terminating each line equals joining with newlines plus a final newline |
| EditToolDiff.HunkTextLines | session-viewer/src/components/message-cards/tool-calls/EditToolCallEntry.tsx:26-27 | a hunk's text is its `@@` line and its body lines, each newline-terminated |
| EditToolDiff.HunksTextLines | session-viewer/src/components/message-cards/tool-calls/EditToolCallEntry.tsx:25-28 | all hunks' text is their lines, each newline-terminated |
| EditToolDiff.DiffIsLines | session-viewer/src/components/message-cards/tool-calls/EditToolCallEntry.tsx:19-31 | the diff is its lines joined by newlines, with a final newline |
| EditToolDiff.HunkHeaderLineSingle | session-viewer/src/components/message-cards/tool-calls/EditToolCallEntry.tsx:26 | the `@@` line contains no newline |
| EditToolDiff.HunkLinesSingle | session-viewer/src/components/message-cards/tool-calls/EditToolCallEntry.tsx:25-28 | with single-line bodies, every hunk line is a single line |
| EditToolDiff.DiffLineStructure | session-viewer/src/components/message-cards/tool-calls/EditToolCallEntry.tsx:19-31 | with a single-line path and bodies, splitting the diff at newlines gives back exactly its lines and one trailing empty piece |
| EditToolDiff.DiffLinesSingle | session-viewer/src/components/message-cards/tool-calls/EditToolCallEntry.tsx:19-31 | every line of such a diff is a single line |
| EditToolDiff.HunkLinesCount | session-viewer/src/components/message-cards/tool-calls/EditToolCallEntry.tsx:25-28 | the diff body has one `@@` line per hunk plus the hunks' body lines |
| EditToolDiff.EditHeader | session-viewer/src/components/message-cards/tool-calls/EditToolCallEntry.tsx:15-56 | the title is "Edit " and the file name: the part of the path after its last `/`, or the whole path when it has none |
| EditToolDiff.CanExpand | session-viewer/src/components/message-cards/tool-calls/EditToolCallEntry.tsx:53 | the card expands iff a result is attached |
| EditToolDiff.HasDiffData | session-viewer/src/components/message-cards/tool-calls/EditToolCallEntry.tsx:17 | a diff is drawn iff the edit result is present |
| EditToolDiff.RawSection | session-viewer/src/components/message-cards/tool-calls/EditToolCallEntry.tsx:64 | the raw section's value is always truthy; RawSectionChoice states which value it is |
| EditToolDiff.RawSectionChoice | session-viewer/src/components/message-cards/tool-calls/EditToolCallEntry.tsx:64 | the raw section shows the raw tool result when it is truthy and the input otherwise; either way the value is truthy |
| EditToolDiff.DrawnDiffNonEmpty | session-viewer/src/components/message-cards/tool-calls/EditToolCallEntry.tsx:17-36 | when `structuredPatch` is present, the diff handed to the renderer is not empty |
| UserMessage.IsVisible | session-viewer/src/components/message-cards/UserMessage.tsx:13-15 | a block is visible iff its type is text or image; VisibleExactly states it for the filter |
| UserMessage.VisibleContent | session-viewer/src/components/message-cards/UserMessage.tsx:13-15 | the visible blocks are no more than the content holds, and every one is visible |
| UserMessage.RenderUserMessage | session-viewer/src/components/message-cards/UserMessage.tsx:13-25 | no card iff no block is text or image; otherwise a "user" card with the visible blocks and the anchor |
| UserMessage.VisibleExactly | session-viewer/src/components/message-cards/UserMessage.tsx:13-15 | a block is shown iff it is in the content and is text or image |
| UserMessage.NoToolResultShown | session-viewer/src/components/message-cards/UserMessage.tsx:11-15 | no tool result block is shown |
| UserMessage.VisibleInOrder | session-viewer/src/components/message-cards/UserMessage.tsx:13-15 | the shown blocks come from increasing positions of the content, none left out |
| UserMessage.VisiblePlusToolResults | session-viewer/src/components/message-cards/UserMessage.tsx:13-15 | for user content blocks, shown blocks plus tool results account for every block |
| ToolResultContent.RenderToolResultContent | session-viewer/src/components/message-cards/tool-calls/ToolResultContent.tsx:11-26 | one rendered item per content item, in order |
| ToolResultContent.RenderItem | session-viewer/src/components/message-cards/tool-calls/ToolResultContent.tsx:11-25 | a code block iff the item is text, holding exactly its text; an image's `src` is a `data:` URL ending in the image data |
| ToolResultContent.DataUri | session-viewer/src/components/message-cards/tool-calls/ToolResultContent.tsx:16 | the URL starts with "data:" and ends with the data; DataUriRoundTrip reads it back |
| ToolResultContent.DataUriRoundTrip | session-viewer/src/components/message-cards/tool-calls/ToolResultContent.tsx:16 | the image `src` reads back as the media type and the base64 data |
| ToolResultContent.TextShownVerbatim | session-viewer/src/components/message-cards/tool-calls/ToolResultContent.tsx:12-14 | a text item renders as a code block of exactly its text |
| ToolResultContent.ImageShownAsDataUri | session-viewer/src/components/message-cards/tool-calls/ToolResultContent.tsx:15-24 | an image item renders as an image whose `src` encodes its source, and is a `data:image/` URI for image media types |
| ToolResultContent.DataUriPrefix | session-viewer/src/components/message-cards/tool-calls/ToolResultContent.tsx:16 | an `image/` media type gives a `data:image/` URI |
| SessionMetadataHeader.FormatDuration | session-viewer/src/components/SessionMetadataHeader.tsx:14-22 | the text is "< 1 min" iff the duration is under a minute, and otherwise ends in "m" or "h" |
| SessionMetadataHeader.DurationForm | session-viewer/src/components/SessionMetadataHeader.tsx:16-21 | from a minute on, the text is fixed by the whole minutes t: "tm" under an hour, "hh" for a whole number of hours, and "hh mm" with 1 to 59 minutes left over otherwise |
| SessionMetadataHeader.NinetyMinutes | session-viewer/src/components/SessionMetadataHeader.tsx:21 | 5400000 ms is written "1h 30m", not "90m" |
| SessionMetadataHeader.UnderAMinuteUnread | session-viewer/src/components/SessionMetadataHeader.tsx:16 | "< 1 min" does not read as a duration |
| SessionMetadataHeader.OneWordRoundTrip | session-viewer/src/components/SessionMetadataHeader.tsx:20-21 | "Nm" and "Nh" read back as N minutes and N hours |
| SessionMetadataHeader.TwoWordsRoundTrip | session-viewer/src/components/SessionMetadataHeader.tsx:21 | "Hh Mm" reads back as H*60+M minutes |
| SessionMetadataHeader.DurationRoundTrip | session-viewer/src/components/SessionMetadataHeader.tsx:14-22 | every duration of a minute or more reads back as its whole minutes; the text is "< 1 min" iff the duration is under a minute |
| SessionMetadataHeader.DurationTextDetermined | session-viewer/src/components/SessionMetadataHeader.tsx:14-22 | two durations give the same text iff both are under a minute or they have the same whole minutes |
| SessionMetadataHeader.ShortId | session-viewer/src/components/SessionMetadataHeader.tsx:35 | the short id is the id's first eight characters, or the whole id when shorter |
| SessionMetadataHeader.ResumeCommand | session-viewer/src/components/SessionMetadataHeader.tsx:38 | the copied command is "claude --resume " followed by the whole id |
| SessionMetadataHeader.ShortIdInCommand | session-viewer/src/components/SessionMetadataHeader.tsx:35-38 | the shown id starts the id the command resumes, and is that id when it has at most eight characters |
| CheckVersion.ParseParts | claude-code-session-share/commands/publish/scripts/check_version.py:47 | the parts parse iff every part is an integer for `int()`, and then give those integers in order |
| CheckVersion.PyInt | claude-code-session-share/commands/publish/scripts/check_version.py:47 | `int()` on one part; PyIntOfIntToString and PyIntNeedsDigits state what it accepts |
| CheckVersion.PyIntNeedsDigits | claude-code-session-share/commands/publish/scripts/check_version.py:47 | accepted text, stripped, is not empty and ends in a digit |
| CheckVersion.ParseVersion | claude-code-session-share/commands/publish/scripts/check_version.py:44-49 | a failure carries "Invalid version format: " and the string; a success has one integer per dot-separated part |
| CheckVersion.EmptyVersionRejected | claude-code-session-share/commands/publish/scripts/check_version.py:47-49 | the empty string is not a version |
| CheckVersion.EmptyPartRejected | claude-code-session-share/commands/publish/scripts/check_version.py:47-49 | a version with two adjacent dots is rejected |
| CheckVersion.RenderParts | claude-code-session-share/commands/publish/scripts/check_version.py:47 | one decimal string per integer, in order |
| CheckVersion.PyIntOfIntToString | claude-code-session-share/commands/publish/scripts/check_version.py:47 | `int()` reads back a rendered integer, which has no dot |
| CheckVersion.VersionRoundTrip | claude-code-session-share/commands/publish/scripts/check_version.py:44-49 | every non-empty integer tuple, written with dots, parses back to itself |
| CheckVersion.GetLocalVersion | claude-code-session-share/commands/publish/scripts/check_version.py:24-36 | an unreadable file gives "Could not read" with the path and the OS error; a found version is never `None` |
| CheckVersion.VersionField | claude-code-session-share/commands/publish/scripts/check_version.py:66 | nothing iff the remote document is not a dict (so `.get` raises); a value iff `version` is present and not null, and then that value |
| CheckVersion.CheckForUpdate | claude-code-session-share/commands/publish/scripts/check_version.py:52-80 | the update check; the lemmas below state its results |
| CheckVersion.MessagesAreWarningsOrUpdate | claude-code-session-share/commands/publish/scripts/check_version.py:52-80 | every message is a "Warning: Could not " warning or the "Plugin update available!" notice |
| CheckVersion.UpdateIffNewer | claude-code-session-share/commands/publish/scripts/check_version.py:76-78 | with both versions parsed, the update message is given iff the remote tuple is greater, and nothing otherwise |
| CheckVersion.UpdateMessageEmbedsVersions | claude-code-session-share/commands/publish/scripts/check_version.py:77 | the message holds the local version after its lead and ends with the remote version and a period |
| CheckVersion.LocalFailureDecidesFirst | claude-code-session-share/commands/publish/scripts/check_version.py:55-63 | an unusable local version decides the result whatever the remote body |
| CheckVersion.LocalFailureWarns | claude-code-session-share/commands/publish/scripts/check_version.py:55-63 | that result is a "Warning: Could not " message, or an uncaught exception from `.get`/`.split` on a wrong-typed value |
| CheckVersion.RemoteFailureSilent | claude-code-session-share/commands/publish/scripts/check_version.py:65-80 | with a usable local version, a network failure or an undecodable body gives no message |
| CheckVersion.RemoteVersionWarnings | claude-code-session-share/commands/publish/scripts/check_version.py:68-74 | a remote file with no version gives one warning; a remote version that does not parse gives the other, naming what it got |
| Seqs.LexGreaterIrreflexive | claude-code-session-share/commands/publish/scripts/check_version.py:76 | no version is newer than itself |
| Seqs.LexGreaterTrichotomy | claude-code-session-share/commands/publish/scripts/check_version.py:76 | of two different versions exactly one is newer |
| Seqs.LexGreaterTransitive | claude-code-session-share/commands/publish/scripts/check_version.py:76 | tuple order is transitive |
| Seqs.ExtensionIsLexGreater | claude-code-session-share/commands/publish/scripts/check_version.py:76 | a version extended with more parts is newer (1.2.0 is newer than 1.2) |
| Seqs.LexGreaterAtFirstDifference | claude-code-session-share/commands/publish/scripts/check_version.py:76 | the first differing part decides the order |
| GistSamples.DiscoverGists | samples/scripts/fetch_gist_samples.py:21-25 | the selected gists are no more than the gists listed |
| GistSamples.MarkerIn | samples/scripts/fetch_gist_samples.py:25 | a falsy description gives false; the test fails, with `TypeError`, iff the description is truthy and not a string, list or dict |
| GistSamples.IsTranscriptGist | samples/scripts/fetch_gist_samples.py:25 | the test raises `AttributeError` iff the gist is not a dict |
| GistSamples.EmptyDescriptionNeverMatches | samples/scripts/fetch_gist_samples.py:25 | a missing or null description counts as "" and never holds the marker |
| GistSamples.DiscoverGistsIsFilter | samples/scripts/fetch_gist_samples.py:25 | the selected gists are the listed ones that hold the marker, in order; a null description is never kept |
| GistSamples.StringDescription | samples/scripts/fetch_gist_samples.py:11-25 | a gist with a string description is kept iff the description contains "Claude Code session transcript:" |
| GistSamples.WrittenFileName | samples/scripts/fetch_gist_samples.py:114-115 | a downloaded file's basename is its gist file name, which alone decides whether it is an agent file |
| GistSamples.MainFiles | samples/scripts/fetch_gist_samples.py:110-114 | every main file is a `.jsonl` file that is not an agent file, and there are no more of them than files |
| GistSamples.PartitionOfFiles | samples/scripts/fetch_gist_samples.py:110-115 | main and agent files are exactly the `.jsonl` files without and with the `agent-` prefix; they are disjoint and together are the `.jsonl` files |
| GistSamples.PartitionKeepsOrder | samples/scripts/fetch_gist_samples.py:110-115 | both lists keep the download order of the `.jsonl` files |
| GistSamples.FirstFailure | samples/scripts/fetch_gist_samples.py:117-128 | no failure iff every analysed file's analysis succeeds |
| GistSamples.AnalyzeFile | samples/scripts/fetch_gist_samples.py:119-121 | the file analysis fails iff the transcript analysis does, with its error; otherwise it has the basename and the analysis |
| GistSamples.FirstFailureStep | samples/scripts/fetch_gist_samples.py:124-128 | a failing first file decides the error; a succeeding one defers to the rest |
| GistSamples.AnalyzeEach | samples/scripts/fetch_gist_samples.py:124-128 | the analyses of each file in order, or the first file's error |
| GistSamples.ProcessGist | samples/scripts/fetch_gist_samples.py:104-137 | fails with the first failing analysis; otherwise gives the gist id, the viewer URL, the first main file's analysis iff there is one, every agent file's analysis in order, and `has_subagents` iff there are agent files |
| GistSamples.ToolsCell | samples/scripts/fetch_gist_samples.py:156 | the tools cell has at most 40 characters |
| GistSamples.ToolsCellShows | samples/scripts/fetch_gist_samples.py:156 | no tools give "-"; otherwise the cell is the start of the comma-joined names, cut at 40 |
| GistSamples.RowCells | samples/scripts/fetch_gist_samples.py:152-163 | a row has seven cells: the id cut to its first 12 characters between backticks, the subagent flag fourth, and the viewer link last |
| GistSamples.RowWithMain | samples/scripts/fetch_gist_samples.py:154-159 | with a main transcript, the entries, tools, thinking and images cells come from its analysis |
| GistSamples.RowWithoutMain | samples/scripts/fetch_gist_samples.py:154-159 | without a main transcript the row shows "?", "-", and "no" for thinking and images |
| GistSamples.RowAsWritten | samples/scripts/fetch_gist_samples.py:152-163 | a row is the seven cells between `|` separators |
| GistSamples.RowExcludesNewline | samples/scripts/fetch_gist_samples.py:161-163 | a row built from single-line id, URL and tool names is a single line |
| GistSamples.HeaderLines | samples/scripts/fetch_gist_samples.py:141-149 | seven header lines: the title first, the table head and rule last |
| GistSamples.HeaderExcludesNewline | samples/scripts/fetch_gist_samples.py:141-149 | the seven header lines are single lines |
| GistSamples.Rows | samples/scripts/fetch_gist_samples.py:151-163 | one row per entry, in order |
| GistSamples.IndexLines | samples/scripts/fetch_gist_samples.py:140-165 | the seven header lines, one row per entry in order, then an empty line |
| GistSamples.BuildIndexMd | samples/scripts/fetch_gist_samples.py:140-166 | the index is those lines joined by newlines |
| GistSamples.IndexReadsBack | samples/scripts/fetch_gist_samples.py:140-166 | splitting the index at newlines gives back its lines: 8 more than the entries |
| TranscriptAnalysis.Increment | samples/scripts/fetch_gist_samples.py:65-75 | counting a key makes the counter at most one pair longer and never empty; IncrementCounts states the counts |
| TranscriptAnalysis.IncrementCounts | samples/scripts/fetch_gist_samples.py:63-75 | counting a key adds one to it and to the total, leaves the other keys alone, and adds it to the keys |
| TranscriptAnalysis.IncrementDistinct | samples/scripts/fetch_gist_samples.py:63-75 | counting keeps each key once |
| TranscriptAnalysis.SortNames | samples/scripts/fetch_gist_samples.py:97 | the sorted tool list is strictly increasing and holds exactly the set's names |
| TranscriptAnalysis.SortedHasNoRepeats | samples/scripts/fetch_gist_samples.py:97 | a sorted tool list repeats no name |
| TranscriptAnalysis.StrLessTotal | samples/scripts/fetch_gist_samples.py:97 | string order is total and strict |
| TranscriptAnalysis.StrLessTransitive | samples/scripts/fetch_gist_samples.py:97 | string order is transitive |
| TranscriptAnalysis.ScanForImage | samples/scripts/fetch_gist_samples.py:86-92 | the inner scan finds an image iff some inner item is a dict of type image |
| TranscriptAnalysis.InspectBlocks | samples/scripts/fetch_gist_samples.py:71-92 | the block loop computes the specified fold over the blocks |
| TranscriptAnalysis.FoldBlocksStep | samples/scripts/fetch_gist_samples.py:71-92 | one block step carries the fold forward, or fails with its error |
| TranscriptAnalysis.BlockStep | samples/scripts/fetch_gist_samples.py:71-92 | one block of the inner loop; BlockStepFlags and BlockStepCounts state its effect |
| TranscriptAnalysis.InspectLine | samples/scripts/fetch_gist_samples.py:55-92 | one line computes the specified line step |
| TranscriptAnalysis.FoldLinesStep | samples/scripts/fetch_gist_samples.py:54-92 | one line step carries the fold forward, or fails with its error |
| TranscriptAnalysis.LineStep | samples/scripts/fetch_gist_samples.py:55-92 | one line of the outer loop; LineStepMeaning states its effect |
| TranscriptAnalysis.AnalyzeTranscript | samples/scripts/fetch_gist_samples.py:44-101 | fails iff the specified analysis fails, with its error; otherwise it agrees with it field by field, with the tools sorted |
| TranscriptAnalysis.AnalysisOf | samples/scripts/fetch_gist_samples.py:44-101 | the analysis of a file's lines; AnalysisCounts and AnalysisBlocks state what it holds |
| TranscriptAnalysis.ToolNamesMember | samples/scripts/fetch_gist_samples.py:76-79 | a name is used iff some block is a tool_use dict with that truthy string name |
| TranscriptAnalysis.BlockStepFlags | samples/scripts/fetch_gist_samples.py:76-92 | a block adds its tool name, sets thinking for a thinking block, and sets images for an image block or a tool_result holding one |
| TranscriptAnalysis.BlockStepCounts | samples/scripts/fetch_gist_samples.py:72-75 | a dict block adds one to the block counts; a non-dict block adds nothing |
| TranscriptAnalysis.FoldBlocksFlags | samples/scripts/fetch_gist_samples.py:71-92 | over blocks: tools used gain the blocks' names; thinking and images become set iff some block shows them |
| TranscriptAnalysis.FoldBlocksCounts | samples/scripts/fetch_gist_samples.py:71-75 | over blocks: the block counts grow by the number of dict blocks and keep distinct keys |
| TranscriptAnalysis.FoldBlocksEffect | samples/scripts/fetch_gist_samples.py:71-92 | both of the above together |
| TranscriptAnalysis.FoldBlocksMeaning | samples/scripts/fetch_gist_samples.py:71-92 | as membership: a name is used, thinking or an image seen, iff some block shows it |
| TranscriptAnalysis.FoldBlocksConcat | samples/scripts/fetch_gist_samples.py:71-92 | folding concatenated blocks folds the first part, then the second |
| TranscriptAnalysis.LineStepMeaning | samples/scripts/fetch_gist_samples.py:55-92 | a blank or undecodable line changes nothing; a counted line adds one entry and counts its type; its blocks fold into the tally |
| TranscriptAnalysis.FoldLinesMeaning | samples/scripts/fetch_gist_samples.py:54-92 | over lines: entries grow by the counted lines; counts stay consistent; the blocks are those of all lines |
| TranscriptAnalysis.SkippedLinesIgnored | samples/scripts/fetch_gist_samples.py:55-61 | dropping the blank and undecodable lines does not change the analysis |
| TranscriptAnalysis.AnalysisCounts | samples/scripts/fetch_gist_samples.py:63-100 | `total_entries` is the number of counted lines and the entry type counts sum to it, each type once |
| TranscriptAnalysis.AnalysisBlocks | samples/scripts/fetch_gist_samples.py:71-98 | tools used, thinking and images are exactly what some block of some line shows; block counts sum to the number of dict blocks |
| TranscriptAnalysis.MissingTypeCountedUnknown | samples/scripts/fetch_gist_samples.py:64-65 | an entry without `type` is counted under "unknown", and no other type changes |
| TranscriptAnalysis.NonListContentAddsNothing | samples/scripts/fetch_gist_samples.py:69-70 | content that is not a list adds no blocks |

## Left out

- **JSON text.** Decoding JSON text is foreign: `decode` is a parameter of every parser. Numbers are integers; floating point is not modelled.
- **Other viewer code.** These parts of the source are not part of this model:
  - the entry parsers of `transcriptEntry.ts`'s callers: `parseEntries`, tool-call correlation, `extractSessionMetadata`;
  - `isAssistantEntry` and the generic tool-call rendering;
  - React state, styling and the icon components;
  - `parseDiff` of react-diff-view, which the Edit card hands the diff to;
  - `Base64Image`.
- **Network and I/O.** These become inputs or are dropped:
  - the gist fetches in `fetchGistTranscript`; its two `!response.ok` errors are not modelled;
  - the GitHub API calls of `fetch_gist_samples.py` (`run_gh`, `download_gist`): the model takes the downloaded paths and the listed gists as inputs;
  - the file reads of `analyze_transcript`: the model takes the file's lines as input, and an `OSError` while reading is not modelled;
  - the clock: `generatedAt` is a parameter and `fetched_at` is not modelled;
  - the `print` progress output.
- **check_version.py's I/O.** `read_text()` of `plugin.json` and the `urlopen` fetch become `Result` parameters: the file's text or the OS error, and the response body or a network failure. A `UnicodeDecodeError` from `read_text()` or `.decode()` escapes `check_for_update` uncaught; it is not modelled.
- **main().** The `main()` of `fetch_gist_samples.py` (its try/except loop and its `index.json` dump) and the `main()` of `check_version.py` are not modelled.
- **Zod.** The schemas are predicates on JSON values. Zod's stripping of unknown keys does not matter, because only named fields are read.
- GistGateway.FindJsonlFile: `Object.values` order is taken as the gist's file list order.
- **Dates.** `formatStartTime` uses a locale-dependent date format. `formatDuration` parses ISO dates: the model takes the millisecond difference as its input, and invalid dates (NaN) are not modelled.
- **Strings.** JavaScript strings are sequences of UTF-16 units, and Python strings are sequences of code points. Both are `seq<char>` here.
- CheckVersion.ParseVersion: Python's `int()` also accepts underscores between digits and non-ASCII digits. `PyInt` models only surrounding whitespace, an optional sign and ASCII digits.
- TranscriptAnalysis.AnalyzeTranscript: in Python `True == 1`, so a `True` and a `1` key collide in a dict. The model keeps them apart.
- TranscriptAnalysis.BlockStepFlags: a truthy non-string tool name (a number) is added to the Python set, and `sorted` later fails only when it is mixed with strings. The model raises `TypeError` at once for such a name.
- TranscriptAnalysis.AnalyzeTranscript: states agreement with the specified analysis (`Summarises`), with the tools as a sorted list, rather than equality of Python dicts.
- ToolCallSummary.GetToolSummary: requires a call named Read to have typed `file_path`/`offset`/`limit` fields, as the source's casts assume. Coercions of other-typed values are not modelled.
- ToolCallSummary.ReadSummaryParts: the same typed-field precondition as GetToolSummary.
- ReadToolHeader.HeaderRoundTrip: holds only when a header without a range does not have a file name ending in `)`. Such a name would read back as a range.
- ToolResultContent.RenderToolResultContent: the source's `return null` branch is not modelled, because the declared item union has only text and image.
- ToolResultContent.DataUriRoundTrip: requires a media type without `;`.
- GistSamples.DiscoverGistsIsFilter: stated only when every gist's test succeeds. A non-dict gist raises `AttributeError`, and a truthy number or boolean description raises `TypeError`. Both are modelled in `DiscoverGists`.
- GistSamples.IndexReadsBack: requires the id, URL and tool names to be single lines.
- GistSamples.ToolsCellShows: the length claim requires a non-empty first tool name.
