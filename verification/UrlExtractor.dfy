/** The `url-extractor` tool: it classifies a URL as a video or a web page
    and returns mock content for it. The clock and any exception raised
    while extracting are parameters. */
module UrlExtractor {
  import opened Wrappers
  import opened Js
  import Text
  import VideoIds

  /** `z.enum(['webpage', 'video', 'auto'])` */
  datatype ContentType = Webpage | Video | Auto

  function ContentTypeName(t: ContentType): (r: string)
    ensures r != ""
  {
    match t
    case Webpage => "webpage"
    case Video => "video"
    case Auto => "auto"
  }

  /** `.optional().default('auto')`: a missing value is `auto`, any other
      value must be one of the three names. */
  function ParseContentType(v: Value): (r: Option<ContentType>)
    ensures v.Undefined? ==> r == Some(Auto)
  {
    match v
    case Undefined => Some(Auto)
    case Str(s) =>
      if s == "webpage" then Some(Webpage)
      else if s == "video" then Some(Video)
      else if s == "auto" then Some(Auto)
      else None
    case _ => None
  }

  /** The three names are read back as themselves, and nothing else is read
      as a content type but `undefined`. */
  lemma ContentTypeRoundTrip(t: ContentType, v: Value)
    ensures ParseContentType(Str(ContentTypeName(t))) == Some(t)
    ensures ParseContentType(v).Some? <==> v.Undefined? || exists u :: v == Str(ContentTypeName(u))
  {
    if v.Str? && ParseContentType(v).Some? {
      var u := ParseContentType(v).value;
      assert v == Str(ContentTypeName(u));
    }
  }

  /** The tool's input after validation. */
  datatype Input = Input(url: string, contentType: ContentType)

  /** `inputSchema`; `isUrl` stands for zod's `.url()` check. */
  function ParseInput(v: Value, isUrl: string -> bool): (r: Option<Input>)
    ensures r.Some? ==> isUrl(r.value.url)
  {
    var url := AsString(Get(v, "url"));
    var contentType := ParseContentType(Get(v, "contentType"));
    if v.Obj? && url.Some? && isUrl(url.value) && contentType.Some?
    then Some(Input(url.value, contentType.value))
    else None
  }

  function EncodeInput(i: Input): Value {
    Obj(map["url" := Str(i.url), "contentType" := Str(ContentTypeName(i.contentType))])
  }

  /** An input survives validation exactly when its URL is one; leaving
      the content type out is the same as asking for `auto`. */
  lemma InputRoundTrip(i: Input, isUrl: string -> bool)
    ensures ParseInput(EncodeInput(i), isUrl) == if isUrl(i.url) then Some(i) else None
    ensures ParseInput(Obj(map["url" := Str(i.url)]), isUrl)
            == if isUrl(i.url) then Some(Input(i.url, Auto)) else None
  {
    var v := EncodeInput(i);
    assert Get(v, "url") == Str(i.url);
    assert Get(v, "contentType") == Str(ContentTypeName(i.contentType));
    ContentTypeRoundTrip(i.contentType, Undefined);
  }

  /** The URL names one of the three video hosts. */
  predicate VideoHost(url: string) {
    Text.Contains(url, "youtube.com") || Text.Contains(url, "youtu.be") || Text.Contains(url, "vimeo.com")
  }

  /** The detected type: an explicit type is kept, and `auto` becomes
      `video` for a video host and `webpage` otherwise. */
  function Detect(t: ContentType, url: string): (r: ContentType)
    ensures r != Auto
    ensures t != Auto ==> r == t
    ensures t == Auto ==> (r == Video <==> VideoHost(url))
  {
    if t == Auto then (if VideoHost(url) then Video else Webpage) else t
  }

  /** Detecting again changes nothing. */
  lemma DetectIdempotent(t: ContentType, url: string)
    ensures Detect(Detect(t, url), url) == Detect(t, url)
  {
  }

  /** Every URL the project accepts as a YouTube link is classified as a
      video. */
  lemma VideoIdUrlIsVideo(url: string)
    requires VideoIds.GetVideoId(url).Ok?
    ensures Detect(Auto, url) == Video
  {
    VideoIds.GetVideoIdFails(url);
    var j: nat :| VideoIds.FirstMatch(url, j).Some? || VideoIds.SecondMatch(url, j).Some?;
    if VideoIds.FirstMatch(url, j).Some? {
      FirstMatchHost(url, j);
    } else {
      SecondMatchHost(url, j);
    }
  }

  lemma SecondMatchHost(url: string, j: nat)
    requires VideoIds.SecondMatch(url, j).Some?
    ensures VideoHost(url)
  {
    assert VideoIds.At(url, j, VideoIds.WatchQuery);
    AtHost(url, j, VideoIds.WatchQuery, "youtube.com");
  }

  lemma FirstMatchHost(url: string, j: nat)
    requires VideoIds.FirstMatch(url, j).Some?
    ensures VideoHost(url)
  {
    if VideoIds.At(url, j, VideoIds.WatchPrefix) {
      AtHost(url, j, VideoIds.WatchPrefix, "youtube.com");
    } else if VideoIds.At(url, j, VideoIds.ShortPrefix) {
      AtHost(url, j, VideoIds.ShortPrefix, "youtu.be");
    } else if VideoIds.At(url, j, VideoIds.EmbedPrefix) {
      AtHost(url, j, VideoIds.EmbedPrefix, "youtube.com");
    } else {
      AtHost(url, j, VideoIds.LegacyPrefix, "youtube.com");
    }
  }

  /** A prefix found in the URL brings along the host name it starts with. */
  lemma AtHost(url: string, j: nat, prefix: string, host: string)
    requires VideoIds.At(url, j, prefix) && Text.StartsWith(prefix, host)
    ensures Text.Contains(url, host)
  {
    assert url[j..j + |host|] == host by {
      forall k | 0 <= k < |host|
        ensures url[j..j + |host|][k] == host[k]
      {
        assert url[j + k] == prefix[k];
        assert prefix[..|host|][k] == host[k];
      }
    }
    Text.ContainsAt(url, j, host);
  }

  /** `metadata`: only videos report a duration. */
  datatype Metadata = Metadata(duration: Option<real>, author: string, publishDate: string, description: string)

  /** `outputSchema` */
  datatype Output = Output(
    url: string,
    contentType: string,
    title: Option<string>,
    content: string,
    metadata: Option<Metadata>,
    extractedAt: string,
    success: bool,
    error: Option<string>)

  /** What the `try` block raised: an `Error` with its message, or some
      other value. */
  datatype Thrown = ErrorThrown(message: string) | ValueThrown

  const VideoDuration: real := 300.0

  const TranscriptLead := "This is a mock transcript of the video at "
  const TranscriptTail := ". In a real implementation, this would contain the actual video transcript obtained"
                          + " through services like YouTube API for metadata and Whisper API for transcription, or"
                          + " similar video processing services.\n\nKey points from the video:\n"
                          + "- Introduction and project overview\n- Installation and setup instructions\n"
                          + "- Feature demonstrations\n- Usage examples\n- Conclusion and next steps"
  const PageLead := "This is mock content extracted from the webpage at "
  const PageTail := ". In a real implementation, this would contain the actual webpage content extracted using"
                    + " services like Firecrawl, Playwright, or similar web scraping tools.\n\nThe content would"
                    + " include:\n- Main text content from the page\n- Structured data and metadata\n"
                    + "- Links and references\n- Code snippets if present\n- Documentation sections"
  const ExtractFailed := "Failed to extract content from URL"

  /** `execute`: `now` is the ISO time `new Date().toISOString()` reads,
      and `thrown` what the `try` block raised, if anything. */
  function Extract(input: Input, now: string, thrown: Option<Thrown>): (r: Output)
    ensures r.url == input.url
    ensures r.contentType == ContentTypeName(Detect(input.contentType, input.url))
    ensures r.extractedAt == now
    ensures r.success <==> thrown.None?
    ensures r.success ==>
              && r.title.Some? && r.metadata.Some? && r.error.None?
              && Text.Contains(r.content, input.url)
              && r.metadata.value.publishDate == now
              && (r.metadata.value.duration.Some? <==> Detect(input.contentType, input.url) == Video)
              && (r.metadata.value.duration.Some? ==> r.metadata.value.duration.value == VideoDuration)
    ensures !r.success ==>
              && r.content == "" && r.title.None? && r.metadata.None?
              && r.error == Some(if thrown.value.ErrorThrown? then thrown.value.message else ExtractFailed)
  {
    var detected := Detect(input.contentType, input.url);
    match thrown
    case None =>
      if detected == Video then
        Text.ContainsMiddle(TranscriptLead, input.url, TranscriptTail);
        Output(input.url, "video", Some("Sample Video Title"), TranscriptLead + input.url + TranscriptTail,
               Some(Metadata(Some(VideoDuration), "Video Creator", now, "Sample video description")),
               now, true, None)
      else
        Text.ContainsMiddle(PageLead, input.url, PageTail);
        Output(input.url, "webpage", Some("Sample Webpage Title"), PageLead + input.url + PageTail,
               Some(Metadata(None, "Page Author", now, "Sample page description")),
               now, true, None)
    case Some(e) =>
      var name := ContentTypeName(detected);
      Output(input.url, if name != "" then name else "unknown", None, "", None, now, false,
             Some(if e.ErrorThrown? then e.message else ExtractFailed))
  }

  /** A failure reports the type a success would have reported, and never
      `auto` or `unknown`. */
  lemma FailureKeepsType(input: Input, now: string, e: Thrown)
    ensures Extract(input, now, Some(e)).contentType == Extract(input, now, None).contentType
    ensures Extract(input, now, Some(e)).contentType !in {"auto", "unknown"}
  {
  }
}
