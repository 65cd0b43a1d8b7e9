/**
 * The body of a tool result: one drawn item per content item, text as a
 * code block and images as `data:` URLs (RFC 2397, section 3, with the
 * `;base64` form).
 */
module ToolResultContent {
  import opened Wrappers
  import opened Strings
  import opened TranscriptEntry

  /** What one content item draws as. */
  datatype RenderedItem =
    | CodeBlock(text: string)
    | Img(src: string, alt: string)

  /** The `data:` URL of a base64 image. */
  function DataUri(mediaType: string, data: string): (src: string)
    ensures StartsWith(src, "data:") && EndsWith(src, data)
  {
    var src := "data:" + mediaType + ";base64," + data;
    assert src[..5] == "data:";
    assert src[|src| - |data|..] == data;
    src
  }

  /** Text becomes a code block of the same text; an image becomes an image, never a code block. */
  function RenderItem(item: ToolResultContentItem): (r: RenderedItem)
    ensures r.CodeBlock? <==> item.ResultText?
    ensures item.ResultText? ==> r.text == item.text
    ensures item.ResultImage? ==> StartsWith(r.src, "data:") && EndsWith(r.src, item.source.data)
  {
    match item
    case ResultText(text) => CodeBlock(text)
    case ResultImage(source) => Img(DataUri(source.mediaType, source.data), "Tool result image")
  }

  /** The items in order, one drawn item for each. */
  function RenderToolResultContent(content: seq<ToolResultContentItem>): (r: seq<RenderedItem>)
    ensures |r| == |content|
    ensures forall i :: 0 <= i < |content| ==> r[i] == RenderItem(content[i])
    decreases |content|
  {
    if content == [] then [] else [RenderItem(content[0])] + RenderToolResultContent(content[1..])
  }

  /** Reads a base64 `data:` URL back into its media type and data. */
  function ParseDataUri(src: string): Option<ImageSource> {
    if !StartsWith(src, "data:") then None
    else
      var rest := src[5..];
      match IndexFrom(rest, ';', 0)
      case None => None
      case Some(k) =>
        if StartsWith(rest[k + 1..], "base64,") then Some(ImageSource(rest[..k], rest[k + 8..])) else None
  }

  /** A media type without `;` survives the trip through its `data:` URL, and so does the data. */
  lemma DataUriRoundTrip(mediaType: string, data: string)
    requires ';' !in mediaType
    ensures ParseDataUri(DataUri(mediaType, data)) == Some(ImageSource(mediaType, data))
  {
    var src := DataUri(mediaType, data);
    var rest := mediaType + ";base64," + data;
    assert src[..5] == "data:";
    assert src[5..] == rest;
    assert rest[|mediaType|] == ';';
    assert forall j :: 0 <= j < |mediaType| ==> rest[j] == mediaType[j];
    assert IndexFrom(rest, ';', 0) == Some(|mediaType|);
    assert rest[|mediaType| + 1..] == "base64," + data;
    assert rest[..|mediaType|] == mediaType;
    assert rest[|mediaType| + 8..] == data;
  }

  /** A text item shows its text unchanged. */
  lemma TextShownVerbatim(content: seq<ToolResultContentItem>, i: nat)
    requires i < |content| && content[i].ResultText?
    ensures RenderToolResultContent(content)[i] == CodeBlock(content[i].text)
  {
  }

  /**
   * An image item is drawn from a `data:` URL from which its source can be
   * read back, and an `image/` media type gives a URL that starts `data:image/`.
   */
  lemma ImageShownAsDataUri(content: seq<ToolResultContentItem>, i: nat)
    requires i < |content| && content[i].ResultImage?
    requires ';' !in content[i].source.mediaType
    ensures RenderToolResultContent(content)[i].Img?
    ensures ParseDataUri(RenderToolResultContent(content)[i].src) == Some(content[i].source)
    ensures StartsWith(content[i].source.mediaType, "image/") ==>
              StartsWith(RenderToolResultContent(content)[i].src, "data:image/")
  {
    var s := content[i].source;
    assert RenderToolResultContent(content)[i] == Img(DataUri(s.mediaType, s.data), "Tool result image");
    DataUriRoundTrip(s.mediaType, s.data);
    if StartsWith(s.mediaType, "image/") {
      DataUriPrefix(s.mediaType, s.data);
    }
  }

  lemma DataUriPrefix(mediaType: string, data: string)
    requires StartsWith(mediaType, "image/")
    ensures StartsWith(DataUri(mediaType, data), "data:image/")
  {
    var u := DataUri(mediaType, data);
    assert u == "data:" + (mediaType + ";base64," + data);
    assert u[..11] == "data:" + mediaType[..6];
  }
}
