/**
 * What a tool hands back (the MCP library's `ToolResult`) and what the
 * service answers to `POST /call-tool` (`ToolCallResponse`), together with
 * the ways a call can fail.
 */
module Results {

  /** Where a descriptor or a response comes from; the wire tags are "local" and "mcp". */
  datatype Origin = Local | Mcp
  {
    function Tag(): (t: string)
      ensures t == "local" <==> this == Local
      ensures t == "mcp" <==> this == Mcp
    {
      match this
      case Local => "local"
      case Mcp => "mcp"
    }
  }

  /** One media artifact (image, video, audio clip or file); only its presence is observed. */
  type Media = string

  /**
   * The result of running a tool. A media list that is absent is the same here
   * as an empty one: the service only tests each list for being non-empty.
   */
  datatype ToolResult = ToolResult(
    content: string,
    images: seq<Media>,
    videos: seq<Media>,
    audios: seq<Media>,
    files: seq<Media>)

  /** A result with text only, as the local demo tool produces. */
  function TextResult(content: string): (r: ToolResult)
    ensures r.content == content
    ensures r.images == r.videos == r.audios == r.files == []
  {
    ToolResult(content, [], [], [], [])
  }

  datatype ToolCallResponse = ToolCallResponse(
    name: string,
    content: string,
    origin: Origin,
    metadata: map<string, nat>)

  /**
   * How a call fails: an HTTP error the service raises on purpose, or an
   * exception that escapes the endpoint (the web framework answers it with a
   * generic 500).
   */
  datatype Failure = Http(status: int, detail: string) | Unhandled(reason: string)

  const MediaKinds: set<string> := {"images", "videos", "audios", "files"}

  /** The list that a metadata key counts. */
  function MediaOf(r: ToolResult, kind: string): seq<Media>
  {
    match kind
    case "images" => r.images
    case "videos" => r.videos
    case "audios" => r.audios
    case "files" => r.files
    case _ => []
  }

  /** Reference definition of the metadata: one count per non-empty media kind. */
  function MediaCounts(r: ToolResult): map<string, nat>
  {
    map kind | kind in MediaKinds && |MediaOf(r, kind)| > 0 :: |MediaOf(r, kind)|
  }

  /** The response `_normalize_tool_result` builds, as a value. */
  function Normalized(name: string, origin: Origin, result: ToolResult): (r: ToolCallResponse)
    ensures r.name == name && r.origin == origin && r.content == result.content
  {
    ToolCallResponse(name, result.content, origin, MediaCounts(result))
  }

  /**
   * Copies name, content and origin through and builds the metadata one
   * conditional insert per media kind.
   */
  method NormalizeToolResult(name: string, origin: Origin, result: ToolResult) returns (r: ToolCallResponse)
    ensures r == Normalized(name, origin, result)
  {
    var metadata: map<string, nat> := map[];
    if |result.images| > 0 {
      metadata := metadata["images" := |result.images|];
    }
    if |result.videos| > 0 {
      metadata := metadata["videos" := |result.videos|];
    }
    if |result.audios| > 0 {
      metadata := metadata["audios" := |result.audios|];
    }
    if |result.files| > 0 {
      metadata := metadata["files" := |result.files|];
    }
    assert metadata == MediaCounts(result);
    r := ToolCallResponse(name, result.content, origin, metadata);
  }

  /** A key is in the metadata exactly when its media list is non-empty, and maps to that list's length. */
  lemma MetadataCountsNonEmptyMedia(result: ToolResult, kind: string)
    ensures kind in MediaCounts(result) <==> kind in MediaKinds && |MediaOf(result, kind)| > 0
    ensures kind in MediaCounts(result) ==> MediaCounts(result)[kind] == |MediaOf(result, kind)|
  {
  }

  /** With no media at all the metadata is the empty dictionary, and only then. */
  lemma MetadataEmptyIffNoMedia(result: ToolResult)
    ensures MediaCounts(result) == map[] <==>
      result.images == [] && result.videos == [] && result.audios == [] && result.files == []
  {
    if result.images != [] {
      assert "images" in MediaCounts(result);
    } else if result.videos != [] {
      assert "videos" in MediaCounts(result);
    } else if result.audios != [] {
      assert "audios" in MediaCounts(result);
    } else if result.files != [] {
      assert "files" in MediaCounts(result);
    }
  }
}
