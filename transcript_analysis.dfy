/**
 * The sample fetcher's transcript analysis: over the lines of a JSONL
 * transcript it counts entries by type and content blocks by type,
 * collects the names of the tools used and notes whether thinking and
 * images appear. Values follow Python: `dict.get` with its default, dict
 * keys kept in insertion order, truthiness, and the `AttributeError` and
 * `TypeError` that values of the wrong kind raise.
 */
module TranscriptAnalysis {
  import opened Wrappers
  import opened Json
  import opened Strings
  import opened Seqs

  /** The exceptions the analysis lets through. */
  datatype PyError = AttributeError | TypeError

  // ---------------------------------------------------------------------
  // Counters: a dict from values to counts, in insertion order
  // ---------------------------------------------------------------------

  type Counts = seq<(Json, nat)>

  /** Values Python can use as dict keys or set members; lists and dicts cannot. */
  predicate Hashable(v: Json) {
    !v.JArr? && !v.JObj?
  }

  predicate DistinctKeys(c: Counts) {
    forall i, j :: 0 <= i < j < |c| ==> c[i].0 != c[j].0
  }

  /** `counts.get(key, 0)`. */
  function CountOf(c: Counts, key: Json): nat
    decreases |c|
  {
    if c == [] then 0 else if c[0].0 == key then c[0].1 else CountOf(c[1..], key)
  }

  function Keys(c: Counts): set<Json>
    decreases |c|
  {
    if c == [] then {} else {c[0].0} + Keys(c[1..])
  }

  /** The sum of all counts. */
  function Total(c: Counts): nat
    decreases |c|
  {
    if c == [] then 0 else c[0].1 + Total(c[1..])
  }

  /** `counts[key] = counts.get(key, 0) + 1`: an existing key keeps its place, a new one goes last. */
  function Increment(c: Counts, key: Json): (r: Counts)
    ensures |c| <= |r| <= |c| + 1
    ensures |r| > 0
    decreases |c|
  {
    if c == [] then [(key, 1)]
    else if c[0].0 == key then [(key, c[0].1 + 1)] + c[1..]
    else [c[0]] + Increment(c[1..], key)
  }

  /** Incrementing adds one to that key's count and leaves every other count as it was. */
  lemma {:induction false} IncrementCounts(c: Counts, key: Json, other: Json)
    ensures CountOf(Increment(c, key), key) == CountOf(c, key) + 1
    ensures other != key ==> CountOf(Increment(c, key), other) == CountOf(c, other)
    ensures Total(Increment(c, key)) == Total(c) + 1
    ensures Keys(Increment(c, key)) == Keys(c) + {key}
    decreases |c|
  {
    if c != [] && c[0].0 != key {
      IncrementCounts(c[1..], key, other);
    }
  }

  /** Incrementing keeps the keys distinct: a key occurs once, as in a dict. */
  lemma {:induction false} IncrementDistinct(c: Counts, key: Json)
    requires DistinctKeys(c)
    ensures DistinctKeys(Increment(c, key))
    decreases |c|
  {
    if c != [] && c[0].0 != key {
      IncrementDistinct(c[1..], key);
      var r := Increment(c, key);
      IncrementCounts(c[1..], key, key);
      forall j | 1 <= j < |r| ensures r[0].0 != r[j].0 {
        KeysHold(Increment(c[1..], key), j - 1);
        KeysOfTail(c, c[0].0);
      }
    }
  }

  lemma {:induction false} KeysHold(c: Counts, j: nat)
    requires j < |c|
    ensures c[j].0 in Keys(c)
    decreases j
  {
    if j > 0 {
      KeysHold(c[1..], j - 1);
    }
  }

  /** With distinct keys, the first key does not occur again. */
  lemma KeysOfTail(c: Counts, key: Json)
    requires DistinctKeys(c) && c != [] && key == c[0].0
    ensures key !in Keys(c[1..])
  {
    if key in Keys(c[1..]) {
      var j := KeyIndex(c[1..], key);
    }
  }

  lemma {:induction false} KeyIndex(c: Counts, key: Json) returns (j: nat)
    requires key in Keys(c)
    ensures j < |c| && c[j].0 == key
    decreases |c|
  {
    if c[0].0 == key {
      j := 0;
    } else {
      j := KeyIndex(c[1..], key);
      j := j + 1;
    }
  }

  // ---------------------------------------------------------------------
  // Content blocks
  // ---------------------------------------------------------------------

  /** Python `d.get(key, default)` on a dict: the default only when the key is absent. */
  function PyGet(fields: map<string, Json>, key: string, default: Json): Json {
    if key in fields then fields[key] else default
  }

  /** What the block loop updates: the block counts, the tool names and the two flags. */
  datatype BlockTally = BlockTally(contentBlockCounts: Counts, toolsUsed: set<string>, hasThinking: bool, hasImages: bool)

  /** A dict block's `type`, `""` when it has none. */
  function BlockType(block: Json): Json
    requires block.JObj?
  {
    PyGet(block.fields, "type", JStr(""))
  }

  /** A dict inside a tool result's list content that is an image. */
  predicate IsImageItem(item: Json) {
    item.JObj? && PyGet(item.fields, "type", JStr("")) == JStr("image")
  }

  /** Whether a tool result block's list content holds an image. */
  predicate ResultHasImage(block: Json)
    requires block.JObj?
  {
    var inner := PyGet(block.fields, "content", JArr([]));
    inner.JArr? && exists k :: 0 <= k < |inner.items| && IsImageItem(inner.items[k])
  }

  /** One iteration of the block loop. */
  function BlockStep(t: BlockTally, block: Json): Result<BlockTally, PyError> {
    if !block.JObj? then Success(t)
    else
      var blockType := BlockType(block);
      if !Hashable(blockType) then Failure(TypeError)
      else
        var t1 := t.(contentBlockCounts := Increment(t.contentBlockCounts, blockType));
        if blockType == JStr("tool_use") then
          var toolName := PyGet(block.fields, "name", JNull);
          if !PyTruthy(toolName) then Success(t1)
          else if toolName.JStr? then Success(t1.(toolsUsed := t1.toolsUsed + {toolName.s}))
          else Failure(TypeError)
        else if blockType == JStr("thinking") then Success(t1.(hasThinking := true))
        else if blockType == JStr("image") then Success(t1.(hasImages := true))
        else if blockType == JStr("tool_result") && ResultHasImage(block) then Success(t1.(hasImages := true))
        else Success(t1)
  }

  /** The block loop over a whole list, stopping at the first exception. */
  function FoldBlocks(t: BlockTally, blocks: seq<Json>): Result<BlockTally, PyError>
    decreases |blocks|
  {
    if blocks == [] then Success(t)
    else
      match BlockStep(t, blocks[0])
      case Failure(e) => Failure(e)
      case Success(t1) => FoldBlocks(t1, blocks[1..])
  }

  // ---------------------------------------------------------------------
  // Lines
  // ---------------------------------------------------------------------

  /** Everything the analysis accumulates. */
  datatype Tally = Tally(entryTypeCounts: Counts, blocks: BlockTally, totalEntries: nat)

  const EmptyTally := Tally([], BlockTally([], {}, false, false), 0)

  /** A line that is analysed: not blank once stripped, and valid JSON. */
  predicate IsCountedLine(line: string, decode: string -> Option<Json>) {
    PyStrip(line) != "" && decode(PyStrip(line)).Some?
  }

  /** One iteration of the line loop. */
  function LineStep(t: Tally, line: string, decode: string -> Option<Json>): Result<Tally, PyError> {
    if !IsCountedLine(line, decode) then Success(t)
    else
      var entry := decode(PyStrip(line)).value;
      if !entry.JObj? then Failure(AttributeError)
      else
        var entryType := PyGet(entry.fields, "type", JStr("unknown"));
        if !Hashable(entryType) then Failure(TypeError)
        else
          var t1 := t.(totalEntries := t.totalEntries + 1, entryTypeCounts := Increment(t.entryTypeCounts, entryType));
          var message := PyGet(entry.fields, "message", JObj(map[]));
          if !message.JObj? then Failure(AttributeError)
          else
            var content := PyGet(message.fields, "content", JArr([]));
            if !content.JArr? then Success(t1)
            else
              match FoldBlocks(t1.blocks, content.items)
              case Failure(e) => Failure(e)
              case Success(b) => Success(t1.(blocks := b))
  }

  /** The line loop over the whole file, stopping at the first exception. */
  function FoldLines(t: Tally, lines: seq<string>, decode: string -> Option<Json>): Result<Tally, PyError>
    decreases |lines|
  {
    if lines == [] then Success(t)
    else
      match LineStep(t, lines[0], decode)
      case Failure(e) => Failure(e)
      case Success(t1) => FoldLines(t1, lines[1..], decode)
  }

  // ---------------------------------------------------------------------
  // Sorting the tool names
  // ---------------------------------------------------------------------

  /** The code points of a string. */
  function Codes(s: string): (r: seq<int>)
    ensures |r| == |s| && forall i :: 0 <= i < |s| ==> r[i] == s[i] as int
  {
    seq(|s|, i requires 0 <= i < |s| => s[i] as int)
  }

  /** Python's `a < b` on strings: code points compared in lexicographic order. */
  predicate StrLess(a: string, b: string) {
    LexGreater(Codes(b), Codes(a))
  }

  lemma CodesInjective(a: string, b: string)
    requires Codes(a) == Codes(b)
    ensures a == b
  {
    assert forall i :: 0 <= i < |a| ==> a[i] as int == b[i] as int;
  }

  /** Distinct strings are ordered one way or the other, and never both. */
  lemma StrLessTotal(a: string, b: string)
    ensures a != b ==> StrLess(a, b) || StrLess(b, a)
    ensures !(StrLess(a, b) && StrLess(b, a))
    ensures !StrLess(a, a)
  {
    LexGreaterTrichotomy(Codes(a), Codes(b));
    LexGreaterIrreflexive(Codes(a));
    if Codes(a) == Codes(b) {
      CodesInjective(a, b);
    }
  }

  lemma StrLessTransitive(a: string, b: string, c: string)
    requires StrLess(a, b) && StrLess(b, c)
    ensures StrLess(a, c)
  {
    LexGreaterTransitive(Codes(c), Codes(b), Codes(a));
  }

  predicate StrictlySorted(r: seq<string>) {
    forall i, j :: 0 <= i < j < |r| ==> StrLess(r[i], r[j])
  }

  /** A non-empty set of strings has a least element. */
  lemma {:induction false} LeastExists(s: set<string>) returns (m: string)
    requires s != {}
    ensures m in s && forall y :: y in s && y != m ==> StrLess(m, y)
    decreases |s|
  {
    var x :| x in s;
    if s == {x} {
      m := x;
    } else {
      var m1 := LeastExists(s - {x});
      StrLessTotal(x, m1);
      if StrLess(x, m1) {
        m := x;
        forall y | y in s && y != m ensures StrLess(m, y) {
          if y != m1 {
            StrLessTransitive(x, m1, y);
          }
        }
      } else {
        m := m1;
      }
    }
  }

  /** `sorted(names)`: the names of the set, each once, in increasing order. */
  method SortNames(names: set<string>) returns (r: seq<string>)
    ensures StrictlySorted(r)
    ensures forall x :: x in r <==> x in names
  {
    r := [];
    var rest := names;
    while rest != {}
      invariant StrictlySorted(r)
      invariant forall x :: x in names <==> x in r || x in rest
      invariant forall x, y :: x in r && y in rest ==> StrLess(x, y)
      decreases |rest|
    {
      ghost var least := LeastExists(rest);
      var m :| m in rest && forall y :: y in rest && y != m ==> StrLess(m, y);
      forall x | x in r ensures StrLess(x, m) {
      }
      r := r + [m];
      forall x, y | x in r && y in rest - {m} ensures StrLess(x, y) {
      }
      rest := rest - {m};
    }
  }

  /** Sorted without repeats: the order decides positions, so no name occurs twice. */
  lemma SortedHasNoRepeats(r: seq<string>)
    requires StrictlySorted(r)
    ensures forall i, j :: 0 <= i < j < |r| ==> r[i] != r[j]
  {
    forall i, j | 0 <= i < j < |r| ensures r[i] != r[j] {
      StrLessTotal(r[i], r[j]);
    }
  }

  // ---------------------------------------------------------------------
  // analyze_transcript
  // ---------------------------------------------------------------------

  /** The analysis as returned. */
  datatype Analysis = Analysis(
    entryTypeCounts: Counts,
    contentBlockCounts: Counts,
    toolsUsed: seq<string>,
    hasThinking: bool,
    hasImages: bool,
    totalEntries: nat)

  /** The inner loop over a tool result's list content: does an image item occur? */
  method ScanForImage(items: seq<Json>) returns (found: bool)
    ensures found <==> exists k :: 0 <= k < |items| && IsImageItem(items[k])
  {
    found := false;
    for k := 0 to |items|
      invariant found <==> exists k' :: 0 <= k' < k && IsImageItem(items[k'])
    {
      var innerBlock := items[k];
      if innerBlock.JObj? {
        var innerType := PyGet(innerBlock.fields, "type", JStr(""));
        if innerType == JStr("image") {
          found := true;
        }
      }
    }
  }

  lemma FoldBlocksStep(start: BlockTally, blocks: seq<Json>, j: nat, t: BlockTally)
    requires j < |blocks| && FoldBlocks(start, blocks) == FoldBlocks(t, blocks[j..])
    ensures BlockStep(t, blocks[j]).Failure? ==> FoldBlocks(start, blocks) == Failure(BlockStep(t, blocks[j]).error)
    ensures BlockStep(t, blocks[j]).Success? ==> FoldBlocks(start, blocks) == FoldBlocks(BlockStep(t, blocks[j]).value, blocks[j + 1..])
  {
    assert blocks[j..][0] == blocks[j] && blocks[j..][1..] == blocks[j + 1..];
  }

  /** The loop over a message's list content, from the counts and flags so far. */
  method InspectBlocks(content: seq<Json>, start: BlockTally) returns (r: Result<BlockTally, PyError>)
    ensures r == FoldBlocks(start, content)
  {
    var contentBlockCounts := start.contentBlockCounts;
    var toolsUsed := start.toolsUsed;
    var hasThinking := start.hasThinking;
    var hasImages := start.hasImages;
    for j := 0 to |content|
      invariant FoldBlocks(start, content) ==
                FoldBlocks(BlockTally(contentBlockCounts, toolsUsed, hasThinking, hasImages), content[j..])
    {
      ghost var before := BlockTally(contentBlockCounts, toolsUsed, hasThinking, hasImages);
      FoldBlocksStep(start, content, j, before);
      var block := content[j];
      if !block.JObj? {
        continue;
      }
      var blockType := PyGet(block.fields, "type", JStr(""));
      if !Hashable(blockType) {
        return Failure(TypeError);
      }
      contentBlockCounts := Increment(contentBlockCounts, blockType);
      if blockType == JStr("tool_use") {
        var toolName := PyGet(block.fields, "name", JNull);
        if PyTruthy(toolName) {
          if !toolName.JStr? {
            return Failure(TypeError);
          }
          toolsUsed := toolsUsed + {toolName.s};
        }
      } else if blockType == JStr("thinking") {
        hasThinking := true;
      } else if blockType == JStr("image") {
        hasImages := true;
      } else if blockType == JStr("tool_result") {
        var inner := PyGet(block.fields, "content", JArr([]));
        if inner.JArr? {
          var found := ScanForImage(inner.items);
          if found {
            hasImages := true;
          }
        }
      }
    }
    assert content[|content|..] == [];
    return Success(BlockTally(contentBlockCounts, toolsUsed, hasThinking, hasImages));
  }

  lemma FoldLinesStep(lines: seq<string>, i: nat, t: Tally, decode: string -> Option<Json>)
    requires i < |lines| && FoldLines(EmptyTally, lines, decode) == FoldLines(t, lines[i..], decode)
    ensures LineStep(t, lines[i], decode).Failure? ==>
              FoldLines(EmptyTally, lines, decode) == Failure(LineStep(t, lines[i], decode).error)
    ensures LineStep(t, lines[i], decode).Success? ==>
              FoldLines(EmptyTally, lines, decode) == FoldLines(LineStep(t, lines[i], decode).value, lines[i + 1..], decode)
  {
    assert lines[i..][0] == lines[i] && lines[i..][1..] == lines[i + 1..];
  }

  /**
   * One pass of the line loop: a blank or undecodable line is skipped;
   * otherwise the entry is counted and its list content inspected.
   */
  method InspectLine(t: Tally, line: string, decode: string -> Option<Json>) returns (r: Result<Tally, PyError>)
    ensures r == LineStep(t, line, decode)
  {
    var stripped := PyStrip(line);
    if stripped == "" {
      return Success(t);
    }
    var decoded := decode(stripped);
    if decoded.None? {
      return Success(t);
    }
    var entry := decoded.value;
    if !entry.JObj? {
      return Failure(AttributeError);
    }
    var totalEntries := t.totalEntries + 1;
    var entryType := PyGet(entry.fields, "type", JStr("unknown"));
    if !Hashable(entryType) {
      return Failure(TypeError);
    }
    var entryTypeCounts := Increment(t.entryTypeCounts, entryType);
    var message := PyGet(entry.fields, "message", JObj(map[]));
    if !message.JObj? {
      return Failure(AttributeError);
    }
    var content := PyGet(message.fields, "content", JArr([]));
    var blocks := t.blocks;
    if content.JArr? {
      var inspected := InspectBlocks(content.items, blocks);
      if inspected.Failure? {
        return Failure(inspected.error);
      }
      blocks := inspected.value;
    }
    return Success(Tally(entryTypeCounts, blocks, totalEntries));
  }

  /** The analysis of a transcript, given as the lines its file yields, with `json.loads` as `decode`. */
  function AnalysisOf(lines: seq<string>, decode: string -> Option<Json>): Result<Tally, PyError> {
    FoldLines(EmptyTally, lines, decode)
  }

  /** The returned dict of a finished line loop: its counts and flags, and its tool names sorted. */
  ghost predicate Summarises(a: Analysis, t: Tally) {
    && a.entryTypeCounts == t.entryTypeCounts
    && a.contentBlockCounts == t.blocks.contentBlockCounts
    && a.hasThinking == t.blocks.hasThinking
    && a.hasImages == t.blocks.hasImages
    && a.totalEntries == t.totalEntries
    && StrictlySorted(a.toolsUsed)
    && (forall x :: x in a.toolsUsed <==> x in t.blocks.toolsUsed)
  }

  /**
   * `analyze_transcript`: the raised exception, or the counts and flags of
   * the line loop with the tool names sorted.
   */
  method AnalyzeTranscript(lines: seq<string>, decode: string -> Option<Json>) returns (r: Result<Analysis, PyError>)
    ensures r.Failure? <==> AnalysisOf(lines, decode).Failure?
    ensures r.Failure? ==> r.error == AnalysisOf(lines, decode).error
    ensures r.Success? ==> Summarises(r.value, AnalysisOf(lines, decode).value)
  {
    var tally := EmptyTally;
    for i := 0 to |lines|
      invariant FoldLines(EmptyTally, lines, decode) == FoldLines(tally, lines[i..], decode)
    {
      FoldLinesStep(lines, i, tally, decode);
      var next := InspectLine(tally, lines[i], decode);
      if next.Failure? {
        return Failure(next.error);
      }
      tally := next.value;
    }
    assert lines[|lines|..] == [];
    var toolsUsed := SortNames(tally.blocks.toolsUsed);
    return Success(Analysis(tally.entryTypeCounts, tally.blocks.contentBlockCounts, toolsUsed,
                            tally.blocks.hasThinking, tally.blocks.hasImages, tally.totalEntries));
  }

  // ---------------------------------------------------------------------
  // What the block loop computes
  // ---------------------------------------------------------------------

  /** The name a block adds to the tools used: a `tool_use` dict block's truthy string name. */
  function UsedName(block: Json): Option<string> {
    if block.JObj? && BlockType(block) == JStr("tool_use") then
      var toolName := PyGet(block.fields, "name", JNull);
      if PyTruthy(toolName) && toolName.JStr? then Some(toolName.s) else None
    else None
  }

  function ToolNames(blocks: seq<Json>): set<string>
    decreases |blocks|
  {
    if blocks == [] then {}
    else (if UsedName(blocks[0]).Some? then {UsedName(blocks[0]).value} else {}) + ToolNames(blocks[1..])
  }

  predicate IsThinking(block: Json) {
    block.JObj? && BlockType(block) == JStr("thinking")
  }

  /** An image block, or a tool result whose list content holds an image. */
  predicate ShowsImage(block: Json) {
    block.JObj? && (BlockType(block) == JStr("image") || (BlockType(block) == JStr("tool_result") && ResultHasImage(block)))
  }

  predicate IsDict(block: Json) {
    block.JObj?
  }

  lemma {:induction false} ToolNamesMember(blocks: seq<Json>, x: string)
    ensures x in ToolNames(blocks) <==> exists k :: 0 <= k < |blocks| && UsedName(blocks[k]) == Some(x)
    decreases |blocks|
  {
    if blocks != [] {
      ToolNamesMember(blocks[1..], x);
      if exists k :: 0 <= k < |blocks| && UsedName(blocks[k]) == Some(x) {
        var k :| 0 <= k < |blocks| && UsedName(blocks[k]) == Some(x);
        if k > 0 {
          assert blocks[1..][k - 1] == blocks[k];
        }
      }
      if exists k :: 0 <= k < |blocks[1..]| && UsedName(blocks[1..][k]) == Some(x) {
        var k :| 0 <= k < |blocks[1..]| && UsedName(blocks[1..][k]) == Some(x);
        assert blocks[k + 1] == blocks[1..][k];
      }
    }
  }

  /** One block's effect on the tools and flags, in the terms of the predicates above. */
  lemma BlockStepFlags(t: BlockTally, block: Json)
    requires BlockStep(t, block).Success?
    ensures var r := BlockStep(t, block).value;
            && r.toolsUsed == t.toolsUsed + (if UsedName(block).Some? then {UsedName(block).value} else {})
            && r.hasThinking == (t.hasThinking || IsThinking(block))
            && r.hasImages == (t.hasImages || ShowsImage(block))
  {
  }

  /** One block's effect on the block-type counter: a dict block is counted once under one key. */
  lemma BlockStepCounts(t: BlockTally, block: Json)
    requires BlockStep(t, block).Success?
    ensures var r := BlockStep(t, block).value;
            && Total(r.contentBlockCounts) == Total(t.contentBlockCounts) + (if IsDict(block) then 1 else 0)
            && (DistinctKeys(t.contentBlockCounts) ==> DistinctKeys(r.contentBlockCounts))
  {
    if block.JObj? {
      IncrementCounts(t.contentBlockCounts, BlockType(block), BlockType(block));
      if DistinctKeys(t.contentBlockCounts) {
        IncrementDistinct(t.contentBlockCounts, BlockType(block));
      }
    }
  }

  /** The block loop's effect on the tools and flags, block by block. */
  lemma {:induction false} FoldBlocksFlags(t: BlockTally, blocks: seq<Json>)
    requires FoldBlocks(t, blocks).Success?
    ensures var r := FoldBlocks(t, blocks).value;
            && r.toolsUsed == t.toolsUsed + ToolNames(blocks)
            && r.hasThinking == (t.hasThinking || Filter(IsThinking, blocks) != [])
            && r.hasImages == (t.hasImages || Filter(ShowsImage, blocks) != [])
    decreases |blocks|
  {
    if blocks != [] {
      BlockStepFlags(t, blocks[0]);
      FoldBlocksFlags(BlockStep(t, blocks[0]).value, blocks[1..]);
    }
  }

  /** The block loop's effect on the block-type counter, block by block. */
  lemma {:induction false} FoldBlocksCounts(t: BlockTally, blocks: seq<Json>)
    requires FoldBlocks(t, blocks).Success?
    ensures var r := FoldBlocks(t, blocks).value;
            && Total(r.contentBlockCounts) == Total(t.contentBlockCounts) + |Filter(IsDict, blocks)|
            && (DistinctKeys(t.contentBlockCounts) ==> DistinctKeys(r.contentBlockCounts))
    decreases |blocks|
  {
    if blocks != [] {
      BlockStepCounts(t, blocks[0]);
      FoldBlocksCounts(BlockStep(t, blocks[0]).value, blocks[1..]);
    }
  }

  /** The block loop's whole effect, in the terms of the predicates above. */
  lemma FoldBlocksEffect(t: BlockTally, blocks: seq<Json>)
    requires FoldBlocks(t, blocks).Success?
    ensures var r := FoldBlocks(t, blocks).value;
            && r.toolsUsed == t.toolsUsed + ToolNames(blocks)
            && r.hasThinking == (t.hasThinking || Filter(IsThinking, blocks) != [])
            && r.hasImages == (t.hasImages || Filter(ShowsImage, blocks) != [])
            && Total(r.contentBlockCounts) == Total(t.contentBlockCounts) + |Filter(IsDict, blocks)|
            && (DistinctKeys(t.contentBlockCounts) ==> DistinctKeys(r.contentBlockCounts))
  {
    FoldBlocksFlags(t, blocks);
    FoldBlocksCounts(t, blocks);
  }

  /**
   * The block loop adds exactly the truthy string names of the `tool_use`
   * blocks, sets `has_thinking` exactly when a `thinking` block occurs and
   * `has_images` exactly when an image occurs at top level or in a tool
   * result's list content, and counts each dict block once; non-dict
   * blocks count for nothing.
   */
  lemma FoldBlocksMeaning(t: BlockTally, blocks: seq<Json>)
    requires FoldBlocks(t, blocks).Success?
    ensures var r := FoldBlocks(t, blocks).value;
            && (forall x :: x in r.toolsUsed <==> x in t.toolsUsed || exists k :: 0 <= k < |blocks| && UsedName(blocks[k]) == Some(x))
            && (r.hasThinking <==> t.hasThinking || exists k :: 0 <= k < |blocks| && IsThinking(blocks[k]))
            && (r.hasImages <==> t.hasImages || exists k :: 0 <= k < |blocks| && ShowsImage(blocks[k]))
            && Total(r.contentBlockCounts) == Total(t.contentBlockCounts) + |Filter(IsDict, blocks)|
  {
    FoldBlocksEffect(t, blocks);
    forall x {
      ToolNamesMember(blocks, x);
    }
    FilterEmptyIff(IsThinking, blocks);
    FilterEmptyIff(ShowsImage, blocks);
  }

  /** The block loop over two lists is the loop over the first, then over the second from where it left off. */
  lemma {:induction false} FoldBlocksConcat(t: BlockTally, x: seq<Json>, y: seq<Json>)
    ensures FoldBlocks(t, x + y) ==
              match FoldBlocks(t, x)
              case Failure(e) => Failure(e)
              case Success(t1) => FoldBlocks(t1, y)
    decreases |x|
  {
    if x == [] {
      assert x + y == y;
    } else {
      assert (x + y)[0] == x[0] && (x + y)[1..] == x[1..] + y;
      if BlockStep(t, x[0]).Success? {
        FoldBlocksConcat(BlockStep(t, x[0]).value, x[1..], y);
      }
    }
  }

  // ---------------------------------------------------------------------
  // What the line loop computes
  // ---------------------------------------------------------------------

  /** The test for analysed lines, as a value to filter with. */
  function CountedTest(decode: string -> Option<Json>): (f: string -> bool)
    ensures forall line :: f(line) == IsCountedLine(line, decode)
  {
    line => IsCountedLine(line, decode)
  }

  /** The blocks of a line's list content; none for a skipped line or content that is not a list. */
  function LineBlocks(line: string, decode: string -> Option<Json>): seq<Json> {
    if !IsCountedLine(line, decode) then []
    else
      var entry := decode(PyStrip(line)).value;
      if !entry.JObj? then []
      else
        var message := PyGet(entry.fields, "message", JObj(map[]));
        if !message.JObj? then []
        else
          var content := PyGet(message.fields, "content", JArr([]));
          if content.JArr? then content.items else []
  }

  /** The type under which an analysed entry is counted: its `type`, or `"unknown"` when it has none. */
  function EntryType(line: string, decode: string -> Option<Json>): Json
    requires IsCountedLine(line, decode) && decode(PyStrip(line)).value.JObj?
  {
    PyGet(decode(PyStrip(line)).value.fields, "type", JStr("unknown"))
  }

  /**
   * One line's effect: a skipped line changes nothing; an analysed line
   * adds one entry, counted under its type, and runs the block loop over
   * its list content.
   */
  lemma LineStepMeaning(t: Tally, line: string, decode: string -> Option<Json>)
    requires LineStep(t, line, decode).Success?
    ensures var r := LineStep(t, line, decode).value;
            && !IsCountedLine(line, decode) ==> r == t
    ensures var r := LineStep(t, line, decode).value;
            IsCountedLine(line, decode) ==>
              && decode(PyStrip(line)).value.JObj?
              && r.totalEntries == t.totalEntries + 1
              && r.entryTypeCounts == Increment(t.entryTypeCounts, EntryType(line, decode))
    ensures FoldBlocks(t.blocks, LineBlocks(line, decode)) == Success(LineStep(t, line, decode).value.blocks)
  {
  }

  /** All blocks the analysed lines' list contents hold, in file order. */
  function AllBlocks(lines: seq<string>, decode: string -> Option<Json>): seq<Json>
    decreases |lines|
  {
    if lines == [] then [] else LineBlocks(lines[0], decode) + AllBlocks(lines[1..], decode)
  }

  /** The entry type counts sum to the entry count, and keep distinct keys. */
  predicate CountsAgree(t: Tally) {
    Total(t.entryTypeCounts) == t.totalEntries && DistinctKeys(t.entryTypeCounts) && DistinctKeys(t.blocks.contentBlockCounts)
  }

  /**
   * The line loop counts one entry per analysed line, keeps the counts in
   * agreement, and leaves the block tally that the block loop gives over
   * all the analysed lines' blocks at once.
   */
  lemma {:induction false} FoldLinesMeaning(t: Tally, lines: seq<string>, decode: string -> Option<Json>)
    requires FoldLines(t, lines, decode).Success?
    ensures var r := FoldLines(t, lines, decode).value;
            && r.totalEntries == t.totalEntries + |Filter(CountedTest(decode), lines)|
            && (CountsAgree(t) ==> CountsAgree(r))
            && FoldBlocks(t.blocks, AllBlocks(lines, decode)) == Success(r.blocks)
    decreases |lines|
  {
    if lines != [] {
      var t1 := LineStep(t, lines[0], decode).value;
      LineStepMeaning(t, lines[0], decode);
      FoldLinesMeaning(t1, lines[1..], decode);
      FoldBlocksConcat(t.blocks, LineBlocks(lines[0], decode), AllBlocks(lines[1..], decode));
      if IsCountedLine(lines[0], decode) && CountsAgree(t) {
        var k := EntryType(lines[0], decode);
        IncrementCounts(t.entryTypeCounts, k, k);
        IncrementDistinct(t.entryTypeCounts, k);
        FoldBlocksEffect(t.blocks, LineBlocks(lines[0], decode));
      }
    }
  }

  // ---------------------------------------------------------------------
  // Properties of the analysis
  // ---------------------------------------------------------------------

  /** Blank lines and lines that are not JSON are skipped: dropping them changes nothing. */
  lemma {:induction false} SkippedLinesIgnored(t: Tally, lines: seq<string>, decode: string -> Option<Json>)
    ensures FoldLines(t, lines, decode) == FoldLines(t, Filter(CountedTest(decode), lines), decode)
    decreases |lines|
  {
    if lines != [] {
      var f := CountedTest(decode);
      var kept := Filter(f, lines);
      if f(lines[0]) {
        assert kept == [lines[0]] + Filter(f, lines[1..]);
        assert kept[0] == lines[0] && kept[1..] == Filter(f, lines[1..]);
        if LineStep(t, lines[0], decode).Success? {
          SkippedLinesIgnored(LineStep(t, lines[0], decode).value, lines[1..], decode);
        }
      } else {
        assert kept == Filter(f, lines[1..]);
        SkippedLinesIgnored(t, lines[1..], decode);
      }
    }
  }

  /**
   * `total_entries` is the number of analysed lines and the sum of the
   * entry type counts, and neither counter holds a key twice.
   */
  lemma AnalysisCounts(lines: seq<string>, decode: string -> Option<Json>)
    requires AnalysisOf(lines, decode).Success?
    ensures var r := AnalysisOf(lines, decode).value;
            && r.totalEntries == |Filter(CountedTest(decode), lines)|
            && Total(r.entryTypeCounts) == r.totalEntries
            && DistinctKeys(r.entryTypeCounts) && DistinctKeys(r.blocks.contentBlockCounts)
  {
    FoldLinesMeaning(EmptyTally, lines, decode);
  }

  /**
   * Over the whole transcript: the tools used are exactly the truthy string
   * names of its `tool_use` blocks, `has_thinking` holds exactly when it has
   * a `thinking` block, `has_images` exactly when it has an image at top
   * level or in a tool result's list content, and the block counts sum to
   * the number of dict blocks.
   */
  lemma AnalysisBlocks(lines: seq<string>, decode: string -> Option<Json>)
    requires AnalysisOf(lines, decode).Success?
    ensures var r := AnalysisOf(lines, decode).value; var blocks := AllBlocks(lines, decode);
            && (forall x :: x in r.blocks.toolsUsed <==> exists k :: 0 <= k < |blocks| && UsedName(blocks[k]) == Some(x))
            && (r.blocks.hasThinking <==> exists k :: 0 <= k < |blocks| && IsThinking(blocks[k]))
            && (r.blocks.hasImages <==> exists k :: 0 <= k < |blocks| && ShowsImage(blocks[k]))
            && Total(r.blocks.contentBlockCounts) == |Filter(IsDict, blocks)|
  {
    FoldLinesMeaning(EmptyTally, lines, decode);
    FoldBlocksMeaning(EmptyTally.blocks, AllBlocks(lines, decode));
  }

  /** An analysed entry without a `type` is counted under `"unknown"`; no other count moves. */
  lemma MissingTypeCountedUnknown(t: Tally, line: string, decode: string -> Option<Json>, other: Json)
    requires IsCountedLine(line, decode)
    requires decode(PyStrip(line)).value.JObj? && "type" !in decode(PyStrip(line)).value.fields
    requires LineStep(t, line, decode).Success?
    ensures CountOf(LineStep(t, line, decode).value.entryTypeCounts, JStr("unknown")) == CountOf(t.entryTypeCounts, JStr("unknown")) + 1
    ensures other != JStr("unknown") ==>
              CountOf(LineStep(t, line, decode).value.entryTypeCounts, other) == CountOf(t.entryTypeCounts, other)
  {
    IncrementCounts(t.entryTypeCounts, JStr("unknown"), other);
  }

  /** Content that is not a list, such as a plain string, adds no block count, tool or flag. */
  lemma NonListContentAddsNothing(t: Tally, line: string, decode: string -> Option<Json>)
    requires LineStep(t, line, decode).Success?
    requires IsCountedLine(line, decode) && decode(PyStrip(line)).value.JObj?
    requires var message := PyGet(decode(PyStrip(line)).value.fields, "message", JObj(map[]));
             message.JObj? && !PyGet(message.fields, "content", JArr([])).JArr?
    ensures LineStep(t, line, decode).value.blocks == t.blocks
  {
  }
}
