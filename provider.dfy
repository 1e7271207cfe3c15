/** What the streaming provider sends back, as typed values instead of raw HTTP and JSON. */
module Provider {
  import opened Wrappers
  import opened Cookies

  /** One element of `ModuleListResponse.messages`; a missing key is None. */
  datatype Message = Message(code: Option<int>, message: Option<string>)

  /** One element of `liveChannelData.hlsAudioInfos`. */
  datatype HlsAudioInfo = HlsAudioInfo(size: string, url: string)

  /**
   * One element of `liveChannelResponses`. `containerGuid` is
   * `markerLists[0].markers[0].containerGUID`, None when any step of that path is missing.
   */
  datatype ChannelEntry = ChannelEntry(
    name: Option<string>,
    channelId: Option<string>,
    siriusChannelNumber: Option<string>,
    containerGuid: Option<string>)

  /**
   * A decoded JSON body: the parts of `ModuleListResponse` the proxy reads. A missing
   * `messages` list reads as empty; a missing status or list as None.
   */
  datatype Doc = Doc(
    status: Option<int>,
    messages: seq<Message>,
    hlsAudioInfos: Option<seq<HlsAudioInfo>>,
    liveChannelResponses: Option<seq<ChannelEntry>>)

  /**
   * The answer to one request: either the connection failed, or a response with its
   * HTTP status, the cookies it sets, its body decoded as JSON (None when that fails),
   * its body as text and as bytes.
   */
  datatype Reply =
    | Unreachable
    | Response(statusCode: int, setCookies: Jar, json: Option<Doc>, text: string, content: seq<bv8>)
}
