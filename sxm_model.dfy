/**
 * The session logic of the `SiriusXM` class in sxm.py as state-passing functions.
 *
 * The provider is an oracle: given a request, the cookies sent with it and the index
 * of the exchange, it returns a reply. Every exchange is appended to the state's
 * log, so the functions below can be held to how many requests of which kind they
 * make. A Python exception is an `Outcome` that is `Raised`; a tenacity
 * `@retry(stop=stop_after_attempt(n))` is `Retry(n, body, s)`.
 */
module SxmModel {
  import opened Wrappers
  import opened Text
  import opened Cookies
  import opened Provider
  import opened Http
  import Hls

  const RestPrefix := "https://player.siriusxm.com/rest/v2/experience/modules/"
  const LivePrimaryHls := "https://siriusxm-priprodlive.akamaized.net"
  const LivePlaceholder := "%Live_Primary_HLS%"

  const LoginMethod := "modify/authentication"
  const ResumeMethod := "resume?OAtrial=false"
  const NowPlayingMethod := "tune/now-playing-live"
  const ChannelListMethod := "get/discover-channel-list?type=2&batch-mode=true&format=json&request-option=discover-channel-list-withpdt&result-template=web"

  /** The `stop_after_attempt` bounds of the four decorated methods. */
  const GetAttempts := 10
  const AuthenticateAttempts := 10
  const PlaylistAttempts := 25
  const SegmentAttempts := 5
  /** The default `max_attempts` of `get_playlist_url`. */
  const PlaylistUrlBudget := 5

  /** The query of a REST GET; the clock-derived `time` and `timestamp` parameters are not modelled. */
  datatype Query = NowPlayingQuery(guid: string, channelId: string) | ChannelListQuery

  /** Which of the three media fetches issued a GET on the streaming host. */
  datatype MediaSite = VariantSite | PlaylistSite | SegmentSite

  /** A request, tagged by the code that issues it. POST bodies are not modelled. */
  datatype Request =
    | RestGet(endpoint: string, query: Query)
    | RestPost(endpoint: string)
    | MediaGet(site: MediaSite, url: string, token: Option<string>, gupId: Option<string>)

  /** One request, the cookies that went with it, and what came back. */
  datatype Exchange = Exchange(request: Request, sent: Jar, reply: Reply)

  /**
   * The fields of a `SiriusXM` object that the core reads and writes: the session's
   * cookies, the `playlists` cache, the `channels` cache (None and the empty list
   * behave alike, so both are the empty sequence), and the exchanges made so far.
   */
  datatype State = State(
    jar: Jar,
    playlists: map<string, Option<string>>,
    channels: seq<ChannelEntry>,
    log: seq<Exchange>)

  /**
   * What the code depends on but cannot see: the provider's replies, the decoder of
   * the SXMDATA cookie, and how deep `get_playlist` may recurse before Python's
   * recursion limit stops it.
   */
  datatype Env = Env(provider: (Request, Jar, nat) -> Reply, decodeGup: string -> Option<string>, depth: nat)

  /** What a call returned or raised, and the state after it. */
  datatype Ret<+T> = Ret(out: Outcome<T>, st: State)

  /** What one exchange returned, and the state after it. */
  datatype Sent = Sent(reply: Reply, st: State)

  /** A fresh `SiriusXM`: a new session, both caches empty, no exchange yet. */
  function Initial(): State {
    State(map[], map[], [], [])
  }

  /** One exchange: the reply's cookies are merged into the session, and the exchange is logged. */
  function Send(e: Env, s: State, req: Request): Sent {
    var reply := e.provider(req, s.jar, |s.log|);
    Sent(reply, State(Received(s.jar, reply), s.playlists, s.channels, s.log + [Exchange(req, s.jar, reply)]))
  }

  /** The cookie jar once a reply has arrived: a response's cookies are merged in. */
  function Received(jar: Jar, reply: Reply): Jar {
    if reply.Response? then Merge(jar, reply.setCookies) else jar
  }

  /**
   * `@retry(stop=stop_after_attempt(n))`: run `body` until it returns normally, at most
   * `n` times, and raise RetryError once all `n` attempts have raised.
   */
  function Retry<T>(n: nat, body: State -> Ret<T>, s: State): Ret<T>
    decreases n
  {
    if n == 0 then Ret(Raised(RetryError), s)
    else
      var a := body(s);
      if a.out.Returned? then a else Retry(n - 1, body, a.st)
  }

  // ----- the REST API: get, post, login, authenticate -----

  /**
   * The exchange of `session.get`/`session.post` on the REST API: a ConnectionError
   * escapes, a status other than 200 gives None, and so does a body that is not JSON.
   */
  function Rest(e: Env, s: State, req: Request): Ret<Option<Doc>> {
    var x := Send(e, s, req);
    match x.reply
    case Unreachable => Ret(Raised(ConnectionError), x.st)
    case Response(code, _, json, _, _) => Ret(Returned(if code == 200 then json else None), x.st)
  }

  /** `login`: only KeyError is caught, so a None from `post` escapes as a TypeError. */
  function Login(e: Env, s: State): Ret<bool> {
    var p := Rest(e, s, RestPost(LoginMethod));
    match p.out
    case Raised(x) => Ret(Raised(x), p.st)
    case Returned(None) => Ret(Raised(TypeError), p.st)
    case Returned(Some(d)) => Ret(Returned(d.status == Some(1) && IsLoggedIn(p.st.jar)), p.st)
  }

  /** The resume exchange at the end of `authenticate`. */
  function Resume(e: Env, s: State): Ret<bool> {
    var p := Rest(e, s, RestPost(ResumeMethod));
    match p.out
    case Raised(x) => Ret(Raised(x), p.st)
    case Returned(None) => Ret(Returned(false), p.st)
    case Returned(Some(d)) => Ret(Returned(d.status == Some(1) && IsSessionAuthenticated(p.st.jar)), p.st)
  }

  /**
   * One attempt of `authenticate`: log in unless the login cookie is present; a failed
   * login resets the session (an empty jar) and raises AuthenticationError.
   */
  function AuthenticateAttempt(e: Env, s: State): Ret<bool> {
    if !IsLoggedIn(s.jar) then
      var l := Login(e, s);
      match l.out
      case Raised(x) => Ret(Raised(x), l.st)
      case Returned(false) => Ret(Raised(AuthenticationError), l.st.(jar := map[]))
      case Returned(true) => Resume(e, l.st)
    else Resume(e, s)
  }

  function AuthBody(e: Env): State -> Ret<bool> {
    t => AuthenticateAttempt(e, t)
  }

  /** `authenticate`, under its decorator of ten attempts. */
  function Authenticate(e: Env, s: State): Ret<bool> {
    Retry(AuthenticateAttempts, AuthBody(e), s)
  }

  /**
   * One attempt of `get`. As written, it authenticates when the session already IS
   * authenticated (the test is the reverse of the one in `post`); a false result
   * gives None and a raised one escapes to the decorator.
   */
  function GetAttempt(e: Env, m: string, q: Query, s: State): Ret<Option<Doc>> {
    if IsSessionAuthenticated(s.jar) then
      var a := Authenticate(e, s);
      match a.out
      case Raised(x) => Ret(Raised(x), a.st)
      case Returned(false) => Ret(Returned(None), a.st)
      case Returned(true) => Rest(e, a.st, RestGet(m, q))
    else Rest(e, s, RestGet(m, q))
  }

  function GetBody(e: Env, m: string, q: Query): State -> Ret<Option<Doc>> {
    t => GetAttempt(e, m, q, t)
  }

  /** `get`, under its decorator of ten attempts. */
  function Get(e: Env, s: State, m: string, q: Query): Ret<Option<Doc>> {
    Retry(GetAttempts, GetBody(e, m, q), s)
  }

  // ----- playlist URL resolution -----

  /** The parameters every media GET carries: the SXMAKTOKEN value and the gupId. */
  function MediaRequest(e: Env, s: State, site: MediaSite, url: string): Request {
    MediaGet(site, url, SxmakToken(s.jar), GupId(s.jar, e.decodeGup))
  }

  /** `get_now_playing`: a `get` of the now-playing module for one channel. */
  function NowPlaying(e: Env, s: State, guid: string, channelId: string): Ret<Option<Doc>> {
    Get(e, s, NowPlayingMethod, NowPlayingQuery(guid, channelId))
  }

  /**
   * `get_playlist_variant_url`: fetch the multivariant playlist; a status other than
   * 200 gives None, otherwise the first variant line joined to the URL's directory.
   */
  function VariantUrl(e: Env, s: State, url: string): Ret<Option<string>> {
    var x := Send(e, s, MediaRequest(e, s, VariantSite, url));
    match x.reply
    case Unreachable => Ret(Raised(ConnectionError), x.st)
    case Response(code, _, _, text, _) =>
      Ret(Returned(if code != 200 then None else Hls.VariantOf(url, text)), x.st)
  }

  /** The index of the first `hlsAudioInfos` entry whose size is "LARGE". */
  function FirstLarge(infos: seq<HlsAudioInfo>): (r: Option<nat>)
    ensures r.None? ==> forall i :: 0 <= i < |infos| ==> infos[i].size != "LARGE"
    ensures r.Some? ==> r.value < |infos| && infos[r.value].size == "LARGE"
    ensures r.Some? ==> forall j :: 0 <= j < r.value ==> infos[j].size != "LARGE"
    decreases |infos|
  {
    if infos == [] then None
    else if infos[0].size == "LARGE" then Some(0)
    else match FirstLarge(infos[1..])
      case None => None
      case Some(i) => Some(i + 1)
  }

  /** The first message's code, when the status, the first message and both its keys are there. */
  function MessageCode(d: Doc): Option<int> {
    if d.status.None? || |d.messages| == 0 || d.messages[0].message.None? then None
    else d.messages[0].code
  }

  /** What `get_playlist_url` does with the now-playing data it fetched. */
  datatype Verdict =
    | GiveUp             // return None
    | Renew              // the session expired: authenticate and ask again
    | Resolve(url: string) // resolve this multivariant playlist URL and cache the result

  /**
   * The dispatch of `get_playlist_url` on the now-playing data. Missing status or
   * message fields give None; codes 201 and 208 mean the session expired, which is
   * renewed while attempts remain; any code but 100 gives None; with 100, the URL of
   * the first LARGE stream, its host placeholder replaced, is to be resolved.
   */
  function VerdictOf(doc: Doc, budget: nat): Verdict {
    match MessageCode(doc)
    case None => GiveUp
    case Some(code) =>
      if code == 201 || code == 208 then (if budget > 0 then Renew else GiveUp)
      else if code != 100 then GiveUp
      else match doc.hlsAudioInfos
        case None => GiveUp
        case Some(infos) =>
          match FirstLarge(infos)
          case None => GiveUp
          case Some(i) => Resolve(Replace(infos[i].url, LivePlaceholder, LivePrimaryHls))
  }

  /**
   * `get_playlist_url`: a cached entry is returned as it is; otherwise the now-playing
   * data is fetched (None there raises TypeError, since only KeyError and IndexError
   * are caught) and its verdict decides what happens next. A resolved variant URL, None
   * included, is stored in the cache.
   */
  function PlaylistUrl(e: Env, s: State, guid: string, channelId: string, useCache: bool, budget: nat): Ret<Option<string>>
    decreases budget
  {
    if useCache && channelId in s.playlists then Ret(Returned(s.playlists[channelId]), s)
    else
      var d := NowPlaying(e, s, guid, channelId);
      match d.out
      case Raised(x) => Ret(Raised(x), d.st)
      case Returned(None) => Ret(Raised(TypeError), d.st)
      case Returned(Some(doc)) =>
        match VerdictOf(doc, budget)
        case GiveUp() => Ret(Returned(None), d.st)
        case Renew() =>
          var a := Authenticate(e, d.st);
          (match a.out
           case Raised(x) => Ret(Raised(x), a.st)
           case Returned(true) => PlaylistUrl(e, a.st, guid, channelId, useCache, budget - 1)
           case Returned(false) => Ret(Returned(None), a.st))
        case Resolve(url) =>
          var v := VariantUrl(e, d.st, url);
          match v.out
          case Raised(x) => Ret(Raised(x), v.st)
          case Returned(r) => Ret(Returned(r), v.st.(playlists := v.st.playlists[channelId := r]))
  }

  // ----- channel lookup -----

  /** What `get_channels` returns: the tuple `(None, None)` when the fetch failed, or a list. */
  datatype Listing = FetchFailed | Channels(entries: seq<ChannelEntry>)

  /** What `get_channel` returns when it finds a channel: `(containerGUID, channelId)`. */
  datatype ChannelRef = ChannelRef(guid: string, id: string)

  /**
   * `get_channels`: the cached list when it is not empty; otherwise authenticate if the
   * session is not authenticated (whatever that does, even raising, is ignored), then
   * fetch the list.
   */
  function GetChannels(e: Env, s: State): Ret<Listing> {
    if |s.channels| > 0 then Ret(Returned(Channels(s.channels)), s)
    else FetchChannels(e, if IsSessionAuthenticated(s.jar) then s else Authenticate(e, s).st)
  }

  /** The fetch of the channel list, cached only when the response holds one. */
  function FetchChannels(e: Env, s: State): Ret<Listing> {
    var d := Get(e, s, ChannelListMethod, ChannelListQuery);
    match d.out
    case Raised(x) => Ret(Raised(x), d.st)
    case Returned(None) => Ret(Returned(FetchFailed), d.st)
    case Returned(Some(doc)) =>
      match doc.liveChannelResponses
      case None => Ret(Returned(Channels([])), d.st)
      case Some(l) => Ret(Returned(Channels(l)), d.st.(channels := l))
  }

  /**
   * The test of `get_channel` on one entry: its lower-cased name or channel id equals
   * the key (a missing one reads as ""), or its channel number equals the key exactly.
   */
  predicate Matches(x: ChannelEntry, key: string) {
    || Lower(x.name.GetOr("")) == key
    || Lower(x.channelId.GetOr("")) == key
    || x.siriusChannelNumber == Some(key)
  }

  /** An entry `get_channel` can return from: reading its GUID and channel id raises nothing. */
  predicate Usable(x: ChannelEntry) {
    x.containerGuid.Some? && x.channelId.Some?
  }

  /** The first entry, in list order, that matches and can be read; the others are skipped. */
  function Lookup(entries: seq<ChannelEntry>, key: string): (r: Option<ChannelRef>)
    ensures r.None? <==> forall i :: 0 <= i < |entries| ==> !(Matches(entries[i], key) && Usable(entries[i]))
    ensures r.Some? ==>
      exists i :: 0 <= i < |entries| && Matches(entries[i], key) && Usable(entries[i])
        && (forall j :: 0 <= j < i ==> !(Matches(entries[j], key) && Usable(entries[j])))
        && r.value == ChannelRef(entries[i].containerGuid.value, entries[i].channelId.value)
    decreases |entries|
  {
    if entries == [] then None
    else if Matches(entries[0], key) && Usable(entries[0]) then
      Some(ChannelRef(entries[0].containerGuid.value, entries[0].channelId.value))
    else
      var r := Lookup(entries[1..], key);
      assert forall i :: 1 <= i < |entries| ==> entries[i] == entries[1..][i - 1];
      r
  }

  /** `get_channel`: look the lower-cased name up in the channel list; a failed fetch finds nothing. */
  function GetChannel(e: Env, s: State, name: string): Ret<Option<ChannelRef>> {
    var c := GetChannels(e, s);
    match c.out
    case Raised(x) => Ret(Raised(x), c.st)
    case Returned(FetchFailed) => Ret(Returned(None), c.st)
    case Returned(Channels(l)) => Ret(Returned(Lookup(l, Lower(name))), c.st)
  }

  // ----- playlists and segments -----

  /**
   * One attempt of `get_playlist`: find the channel, then its playlist. A channel that
   * is not found, or whose GUID or id is empty, gives None.
   */
  function PlaylistAttempt(e: Env, name: string, useCache: bool, fuel: nat, s: State): Ret<Option<string>>
    decreases fuel, 3
  {
    var c := GetChannel(e, s, name);
    match c.out
    case Raised(x) => Ret(Raised(x), c.st)
    case Returned(None) => Ret(Returned(None), c.st)
    case Returned(Some(ref)) =>
      if ref.guid == "" || ref.id == "" then Ret(Returned(None), c.st)
      else PlaylistOf(e, c.st, name, ref, useCache, fuel)
  }

  /**
   * The rest of the attempt once the channel is known: resolve its variant URL. A None
   * URL makes `requests` raise MissingSchema before anything is sent.
   */
  function PlaylistOf(e: Env, s: State, name: string, ref: ChannelRef, useCache: bool, fuel: nat): Ret<Option<string>>
    decreases fuel, 2
  {
    var u := PlaylistUrl(e, s, ref.guid, ref.id, useCache, PlaylistUrlBudget);
    match u.out
    case Raised(x) => Ret(Raised(x), u.st)
    case Returned(None) => Ret(Raised(MissingSchema), u.st)
    case Returned(Some(url)) => FetchPlaylist(e, u.st, name, url, fuel)
  }

  /**
   * The end of the attempt: fetch the media playlist and rewrite it. A ConnectionError
   * is caught but leaves `res` None, so reading its text raises AttributeError; a 403
   * starts `get_playlist` over without the cache, one level deeper.
   */
  function FetchPlaylist(e: Env, s: State, name: string, url: string, fuel: nat): Ret<Option<string>>
    decreases fuel, 1
  {
    var x := Send(e, s, MediaRequest(e, s, PlaylistSite, url));
    match x.reply
    case Unreachable => Ret(Raised(AttributeError), x.st)
    case Response(code, _, _, text, _) =>
      if code == 403 then
        if fuel == 0 then Ret(Raised(RecursionError), x.st)
        else GetPlaylist(e, x.st, name, false, fuel - 1)
      else if code != 200 then Ret(Returned(None), x.st)
      else match Hls.Rewritten(text, url)
        case None => Ret(Raised(IndexError), x.st)
        case Some(m) => Ret(Returned(Some(m)), x.st)
  }

  function PlaylistBody(e: Env, name: string, useCache: bool, fuel: nat): State -> Ret<Option<string>>
    decreases fuel, 4
  {
    t => PlaylistAttempt(e, name, useCache, fuel, t)
  }

  /** `get_playlist`, under its decorator of 25 attempts; `fuel` bounds its recursion on 403. */
  function GetPlaylist(e: Env, s: State, name: string, useCache: bool, fuel: nat): Ret<Option<string>>
    decreases fuel, 5
  {
    Retry(PlaylistAttempts, PlaylistBody(e, name, useCache, fuel), s)
  }

  /** The segment URL `get_segment` fetches. */
  function SegmentUrl(path: string): string {
    LivePrimaryHls + "/" + path
  }

  /**
   * One attempt of `get_segment`: 200 gives the content and any other status but 403
   * gives None; 403 renews the playlist of the channel named by the path's second
   * component and then raises, so the decorator tries again.
   */
  function SegmentAttempt(e: Env, path: string, fuel: nat, s: State): Ret<Option<seq<bv8>>> {
    var x := Send(e, s, MediaRequest(e, s, SegmentSite, SegmentUrl(path)));
    match x.reply
    case Unreachable => Ret(Raised(ConnectionError), x.st)
    case Response(code, _, _, _, content) =>
      if code == 403 then
        var parts := SplitMax(path, '/', 2);
        if |parts| < 2 then Ret(Raised(IndexError), x.st)
        else
          var p := GetPlaylist(e, x.st, parts[1], false, fuel);
          match p.out
          case Raised(y) => Ret(Raised(y), p.st)
          case Returned(_) => Ret(Raised(SegmentRetrievalError), p.st)
      else if code != 200 then Ret(Returned(None), x.st)
      else Ret(Returned(Some(content)), x.st)
  }

  function SegmentBody(e: Env, path: string, fuel: nat): State -> Ret<Option<seq<bv8>>> {
    t => SegmentAttempt(e, path, fuel, t)
  }

  /** `get_segment`, under its decorator of five attempts. */
  function GetSegment(e: Env, s: State, path: string, fuel: nat): Ret<Option<seq<bv8>>> {
    Retry(SegmentAttempts, SegmentBody(e, path, fuel), s)
  }

  // ----- the request handler -----

  /** Which branch of `do_GET` a request path takes. */
  datatype Route = PlaylistRoute | SegmentRoute | KeyRoute | OtherRoute

  /** The order of the tests in `do_GET`: `.m3u8`, then `.aac`, then `/key/1`. */
  function RouteOf(path: string): (r: Route)
    ensures r == KeyRoute <==> EndsWith(path, "/key/1")
    ensures r == PlaylistRoute <==> EndsWith(path, Hls.PlaylistSuffix)
    ensures r == SegmentRoute <==> EndsWith(path, Hls.SegmentSuffix)
  {
    LastOfEnding(path, Hls.PlaylistSuffix);
    LastOfEnding(path, Hls.SegmentSuffix);
    LastOfEnding(path, "/key/1");
    if EndsWith(path, Hls.PlaylistSuffix) then PlaylistRoute
    else if EndsWith(path, Hls.SegmentSuffix) then SegmentRoute
    else if EndsWith(path, "/key/1") then KeyRoute
    else OtherRoute
  }

  /**
   * `do_GET` of the proxy. The channel of a playlist request is the last path component
   * without its five-character suffix; a segment request passes the path without its
   * leading `/`. An empty or missing result is answered with 500. An exception that
   * escapes the handler is Raised: the client gets no answer.
   */
  function Handle(e: Env, s: State, path: string): Ret<Answer> {
    match RouteOf(path)
    case PlaylistRoute() =>
      var parts := RSplitOnce(path, '/');
      if |parts| < 2 then Ret(Raised(IndexError), s)
      else
        var p := GetPlaylist(e, s, DropLast(parts[1], 5), true, e.depth);
        (match p.out
         case Raised(x) => Ret(Raised(x), p.st)
         case Returned(data) =>
           if data.None? || data.value == "" then Ret(Returned(Status(500)), p.st)
           else Ret(Returned(Answer(200, Some(ManifestType), Text(data.value))), p.st))
    case SegmentRoute() =>
      var g := GetSegment(e, s, path[1..], e.depth);
      (match g.out
       case Raised(x) => Ret(Raised(x), g.st)
       case Returned(data) =>
         if data.None? || data.value == [] then Ret(Returned(Status(500)), g.st)
         else Ret(Returned(Answer(200, Some(AudioType), Bytes(data.value))), g.st))
    case KeyRoute() => Ret(Returned(KeyAnswer()), s)
    case OtherRoute() => Ret(Returned(Status(500)), s)
  }
}
