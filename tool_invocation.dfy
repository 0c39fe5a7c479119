/**
 * `call_tool`: forward a call to the named MCP session and turn the content
 * items of its answer into the list that is JSON-encoded as the tool output.
 */
module ToolInvocation {
  import opened Wrappers
  import opened Strings

  /** A content item of an MCP tool result; OtherContent carries `str(type(item))`. */
  datatype ContentItem =
    | TextContent(text: string)
    | ImageContent(data: string, mimeType: string)
    | OtherContent(typeName: string)

  /** What the MCP client call did: returned content, or raised an exception with message `str(e)`. */
  datatype CallOutcome = Returned(content: seq<ContentItem>) | Raised(message: string)

  /**
   * An element of `resp_items`: a bare string for a text item,
   * `{"type": "image_url", "image_url": {"url": ...}}` for an image, and
   * `{"type": "text", "text": ...}` for the error.
   */
  datatype RespItem = Text(text: string) | ImageUrl(url: string) | ErrorText(text: string)

  /** The value `call_tool` returns: the plain message, or the items before `json.dumps`. */
  datatype ToolResponse = NoSession(message: string) | Items(items: seq<RespItem>)

  /** `f"data:{mimeType};base64,{data}"`. */
  function DataUrl(mimeType: string, data: string): string {
    "data:" + mimeType + ";base64," + data
  }

  /** Reads a data URL back into its media type and payload. */
  function ParseDataUrl(url: string): Option<(string, string)> {
    if !StartsWith(url, "data:") then None
    else
      var parts := Split(url[5..], ';');
      if |parts| == 2 && StartsWith(parts[1], "base64,") then Some((parts[0], parts[1][7..])) else None
  }

  lemma DataUrlRoundTrip(mimeType: string, data: string)
    requires ';' !in mimeType && ';' !in data
    ensures ParseDataUrl(DataUrl(mimeType, data)) == Some((mimeType, data))
  {
    var url := DataUrl(mimeType, data);
    var tail := "base64," + data;
    assert url[5..] == mimeType + [';'] + tail;
    SplitAtFirstSeparator(mimeType, tail, ';');
    assert ';' !in tail by {
      forall k | 0 <= k < |tail| ensures tail[k] != ';' {
        if k >= 7 { assert tail[k] == data[k - 7]; }
      }
    }
    SplitWithoutSeparator(tail, ';');
    assert tail[7..] == data;
  }

  function UnsupportedMessage(typeName: string): string {
    "Unsupported content type: " + typeName
  }

  function NoSessionMessage(mcpName: Option<string>): string {
    "no MCP session for " + (if mcpName.Some? then mcpName.value else "None")
  }

  /** The converted items: stops at the first unsupported item, replacing the rest by one error item. */
  function Convert(content: seq<ContentItem>): seq<RespItem> {
    if content == [] then []
    else match content[0]
      case TextContent(t) => [Text(t)] + Convert(content[1..])
      case ImageContent(d, m) => [ImageUrl(DataUrl(m, d))] + Convert(content[1..])
      case OtherContent(n) => [ErrorText(UnsupportedMessage(n))]
  }

  /** How one supported item converts. */
  function ConvertItem(item: ContentItem): RespItem
    requires !item.OtherContent?
  {
    match item
    case TextContent(t) => Text(t)
    case ImageContent(d, m) => ImageUrl(DataUrl(m, d))
  }

  /** Up to the first unsupported item, every item is converted in place. */
  lemma {:induction false} ConvertPrefix(content: seq<ContentItem>, k: nat)
    requires k <= |content|
    requires forall j :: 0 <= j < k ==> !content[j].OtherContent?
    ensures |Convert(content)| >= k
    ensures forall j :: 0 <= j < k ==> Convert(content)[j] == ConvertItem(content[j])
    ensures k == |content| ==> |Convert(content)| == k
    ensures k < |content| && content[k].OtherContent? ==>
      Convert(content) == Convert(content)[..k] + [ErrorText(UnsupportedMessage(content[k].typeName))]
  {
    if k > 0 {
      ConvertPrefix(content[1..], k - 1);
      assert Convert(content) == [ConvertItem(content[0])] + Convert(content[1..]);
      forall j | 1 <= j < k ensures Convert(content)[j] == ConvertItem(content[j]) {
        assert content[1..][j - 1] == content[j];
      }
    }
  }

  /** There is at most one error item, and it is the last one. */
  lemma {:induction false} ConvertErrorIsLast(content: seq<ContentItem>)
    ensures forall j :: 0 <= j < |Convert(content)| && Convert(content)[j].ErrorText? ==> j == |Convert(content)| - 1
  {
    if content != [] && !content[0].OtherContent? {
      ConvertErrorIsLast(content[1..]);
      assert Convert(content) == [ConvertItem(content[0])] + Convert(content[1..]);
    }
  }

  /**
   * `call_tool(mcp_name, function_name, function_args)` given the live sessions and
   * the client call `call(session, name, args)`.
   */
  method CallTool(sessions: set<string>, mcpName: Option<string>, functionName: string, functionArgs: string,
                  call: (string, string, string) -> CallOutcome)
    returns (r: ToolResponse)
    ensures (mcpName.None? || mcpName.value !in sessions) ==> r == NoSession(NoSessionMessage(mcpName))
    ensures mcpName.Some? && mcpName.value in sessions ==>
      match call(mcpName.value, functionName, functionArgs)
      case Raised(e) => r == Items([ErrorText(e)])
      case Returned(content) => r == Items(Convert(content))
  {
    if mcpName.None? || mcpName.value !in sessions {
      return NoSession(NoSessionMessage(mcpName));
    }
    var respItems: seq<RespItem> := [];
    var outcome := call(mcpName.value, functionName, functionArgs);
    match outcome {
      case Raised(e) =>
        respItems := respItems + [ErrorText(e)];
      case Returned(content) =>
        var i := 0;
        while i < |content|
          invariant 0 <= i <= |content|
          invariant respItems + Convert(content[i..]) == Convert(content)
        {
          assert content[i..][1..] == content[i + 1..];
          match content[i] {
            case TextContent(t) =>
              respItems := respItems + [Text(t)];
            case ImageContent(d, m) =>
              respItems := respItems + [ImageUrl(DataUrl(m, d))];
            case OtherContent(n) =>
              respItems := respItems + [ErrorText(UnsupportedMessage(n))];
              break;
          }
          i := i + 1;
        }
    }
    r := Items(respItems);
  }
}
