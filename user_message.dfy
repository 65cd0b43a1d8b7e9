/**
 * The user message card: which of a user message's blocks it shows, and
 * whether it is drawn at all.
 */
module UserMessage {
  import opened Wrappers
  import opened Seqs
  import opened TranscriptEntry

  /** The card shows text and image blocks; tool results are drawn as tool call cards instead. */
  predicate IsVisible(b: ContentBlock) {
    b.Type() == "text" || b.Type() == "image"
  }

  /** The visible blocks, never more than the message holds. */
  function VisibleContent(content: seq<ContentBlock>): (r: seq<ContentBlock>)
    ensures |r| <= |content|
    ensures forall i :: 0 <= i < |r| ==> IsVisible(r[i])
  {
    FilterAllPass(IsVisible, content);
    Filter(IsVisible, content)
  }

  /** The card as drawn: its anchor, its title and alignment, and the blocks it holds. */
  datatype UserCard = UserCard(anchorId: string, title: string, align: string, blocks: seq<ContentBlock>)

  /** The card for a user message, or nothing when no block is visible. */
  function RenderUserMessage(content: seq<ContentBlock>, anchorId: string): (r: Option<UserCard>)
    ensures r.None? <==> forall i :: 0 <= i < |content| ==> !IsVisible(content[i])
    ensures r.Some? ==> r.value.blocks != [] && r.value.title == "user" && r.value.anchorId == anchorId
  {
    FilterEmptyIff(IsVisible, content);
    var visibleContent := VisibleContent(content);
    if |visibleContent| == 0 then None
    else Some(UserCard(anchorId, "user", "right", visibleContent))
  }

  /** A block is shown exactly when it is in the message and is a text or an image block. */
  lemma VisibleExactly(content: seq<ContentBlock>, b: ContentBlock)
    ensures b in VisibleContent(content) <==> b in content && (b.TextBlock? || b.ImageBlock?)
  {
    FilterMembership(IsVisible, content, b);
  }

  /** No tool result is ever shown in the card. */
  lemma NoToolResultShown(content: seq<ContentBlock>)
    ensures forall i :: 0 <= i < |VisibleContent(content)| ==> !VisibleContent(content)[i].ToolResultBlock?
  {
    FilterAllPass(IsVisible, content);
  }

  /**
   * The shown blocks keep the message's order: the k-th shown block is the
   * block at the k-th of a strictly increasing list of positions, and every
   * text or image block of the message has its position in that list.
   */
  lemma VisibleInOrder(content: seq<ContentBlock>) returns (idx: seq<nat>)
    ensures |idx| == |VisibleContent(content)| && IncreasingIndices(idx, content)
    ensures forall k :: 0 <= k < |idx| ==> VisibleContent(content)[k] == content[idx[k]]
    ensures forall i :: 0 <= i < |content| && IsVisible(content[i]) ==> i in idx
  {
    idx := FilterIsSubsequence(IsVisible, content);
  }

  predicate IsToolResult(b: ContentBlock) {
    b.ToolResultBlock?
  }

  /**
   * For the blocks a user may send, the card shows every block but the
   * tool results: the shown blocks and the tool results together account
   * for the whole message.
   */
  lemma {:induction false} VisiblePlusToolResults(content: seq<ContentBlock>)
    requires forall i :: 0 <= i < |content| ==> IsUserContentBlock(content[i])
    ensures |VisibleContent(content)| + |Filter(IsToolResult, content)| == |content|
    decreases |content|
  {
    if content != [] {
      assert IsUserContentBlock(content[0]);
      VisiblePlusToolResults(content[1..]);
    }
  }
}
