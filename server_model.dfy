/**
 * The older proxy, server.py, as state-passing functions over the same kind of
 * provider oracle as `SxmModel`. Its status dispatch recurses without a bound on 403,
 * 503 and an expired session; `fuel` counts how many more nested calls Python's
 * recursion limit allows, and running out raises RecursionError.
 */
module ServerModel {
  import opened Wrappers
  import opened Text
  import opened Cookies
  import opened Provider
  import opened Http

  const BaseUrl := "https://player.siriusxm.com/rest/v1/experience/modules"
  const HlsBaseUrl := "http://primary.hls-streaming.production.streaming.siriusxm.com/AAC_Data"

  /** A request by URL; POST bodies are not modelled. */
  datatype Request = Post(url: string) | Get(url: string)

  /** One request, the cookies that went with it, and what came back. */
  datatype Exchange = Exchange(request: Request, sent: Jar, reply: Reply)

  /** The `requests.Session` of a `SiriusXM` object, and the exchanges made so far. */
  datatype State = State(jar: Jar, log: seq<Exchange>)

  /**
   * The provider's replies, the `channels` module's `get_channel_id` (which is also
   * handed None, when `get_channel_number` finds nothing) and `get_channel_number`,
   * and how deep a handler may recurse.
   */
  datatype Env = Env(
    provider: (Request, Jar, nat) -> Reply,
    channelIdOf: Option<string> -> Option<string>,
    channelNumberOf: string -> Option<string>,
    depth: nat)

  /** What a call returned or raised, and the state after it. */
  datatype Ret<+T> = Ret(out: Outcome<T>, st: State)

  /** What one exchange returned, and the state after it. */
  datatype Sent = Sent(reply: Reply, st: State)

  /** One exchange: a response's cookies are merged into the session, and the exchange is logged. */
  function Send(e: Env, s: State, req: Request): Sent {
    var reply := e.provider(req, s.jar, |s.log|);
    var jar := if reply.Response? then s.jar + reply.setCookies else s.jar;
    Sent(reply, State(jar, s.log + [Exchange(req, s.jar, reply)]))
  }

  // ----- URL templates -----

  const LoginPath := "/modify/authentication"
  const NowPlayingPath := "/tune/now-playing-live?ccRequestType=AUDIO_VIDEO&hls_output_mode=custom&id="
  const NowPlayingTail := "&marker_mode=all_separate_cue_points&result-template=web"

  const VariantDir := "_256k_v3/"
  const LargePlaylist := "_256k_large_v3.m3u8"

  function LoginUrl(): string {
    BaseUrl + LoginPath
  }

  /** The now-playing URL for a channel id; the clock-derived `time` and `timestamp` parameters are not modelled. */
  function NowPlayingUrl(id: string): string {
    BaseUrl + NowPlayingPath + id + NowPlayingTail
  }

  /** The media playlist of a channel id. */
  function PlaylistUrl(id: string): string {
    HlsBaseUrl + "/" + id + "/HLS_" + id + VariantDir + id + LargePlaylist
  }

  /** `name.split('_', 1)[0]`: the channel id a segment name starts with. */
  function SegmentChannel(name: string): string {
    SplitMax(name, '_', 1)[0]
  }

  /** The URL of a segment, in the directory of the channel its name starts with. */
  function SegmentUrl(name: string): string {
    var id := SegmentChannel(name);
    HlsBaseUrl + "/" + id + "/HLS_" + id + VariantDir + name
  }

  // ----- SiriusXM -----

  /**
   * `login`: a 200 response whose JSON status is 1. A ConnectionError escapes; any
   * other status, or a body without that status, gives False.
   */
  function Login(e: Env, s: State): Ret<bool> {
    var x := Send(e, s, Post(LoginUrl()));
    match x.reply
    case Unreachable => Ret(Raised(ConnectionError), x.st)
    case Response(code, _, json, _, _) =>
      Ret(Returned(code == 200 && json.Some? && json.value.status == Some(1)), x.st)
  }

  /**
   * `get_auth_token`: an unknown channel gives False; otherwise the now-playing GET for
   * its id is made and its reply decides.
   */
  function AuthToken(e: Env, s: State, number: Option<string>, fuel: nat): Ret<bool>
    decreases fuel, 2
  {
    match e.channelIdOf(number)
    case None => Ret(Returned(false), s)
    case Some(id) => TokenAnswer(e, Send(e, s, Get(NowPlayingUrl(id))), number, fuel)
  }

  /**
   * What `get_auth_token` makes of the now-playing reply: a ConnectionError escapes; a
   * status other than 200, or a body without a JSON status, gives False; status 0 (an
   * expired session) logs in and asks again; otherwise the answer is whether the
   * response set SXMAKTOKEN.
   */
  function TokenAnswer(e: Env, x: Sent, number: Option<string>, fuel: nat): Ret<bool>
    decreases fuel, 1
  {
    match x.reply
    case Unreachable => Ret(Raised(ConnectionError), x.st)
    case Response(code, cookies, json, _, _) =>
      if code != 200 || json.None? || json.value.status.None? then Ret(Returned(false), x.st)
      else if json.value.status == Some(0) then Relogin(e, x.st, number, fuel)
      else Ret(Returned(TokenCookie in cookies), x.st)
  }

  /**
   * The expired-session branch of `get_auth_token`. It runs under a bare `except`, so a
   * login that raises, a raising retry and the recursion limit all give False.
   */
  function Relogin(e: Env, s: State, number: Option<string>, fuel: nat): Ret<bool>
    decreases fuel, 0
  {
    var l := Login(e, s);
    if l.out != Returned(true) || fuel == 0 then Ret(Returned(false), l.st)
    else
      var t := AuthToken(e, l.st, number, fuel - 1);
      Ret(Returned(t.out == Returned(true)), t.st)
  }

  /** What `get_playlist` and `get_segment` return: False, None, or the 200 response. */
  datatype Fetched = Unknown | NoResponse | Got(response: Reply)

  /**
   * The status dispatch `get_playlist` and `get_segment` share, for a GET of `url` whose
   * token is renewed through channel `number`: the response on 200; on 403 a new token
   * and a retry, or None without one; on 503 a retry; None otherwise. The retry
   * re-enters the caller, which computes the same URL and number again.
   */
  function Fetch(e: Env, s: State, url: string, number: Option<string>, fuel: nat): Ret<Fetched>
    decreases fuel, 2
  {
    FetchAnswer(e, Send(e, s, Get(url)), url, number, fuel)
  }

  function FetchAnswer(e: Env, x: Sent, url: string, number: Option<string>, fuel: nat): Ret<Fetched>
    decreases fuel, 1
  {
    match x.reply
    case Unreachable => Ret(Raised(ConnectionError), x.st)
    case Response(code, _, _, _, _) =>
      if code == 200 then Ret(Returned(Got(x.reply)), x.st)
      else if code == 403 then Renew(e, x.st, url, number, fuel)
      else if code == 503 then
        if fuel == 0 then Ret(Raised(RecursionError), x.st) else Fetch(e, x.st, url, number, fuel - 1)
      else Ret(Returned(NoResponse), x.st)
  }

  /** The 403 branch: renew the token, then retry, or give None. */
  function Renew(e: Env, s: State, url: string, number: Option<string>, fuel: nat): Ret<Fetched>
    decreases fuel, 0
  {
    var a := AuthToken(e, s, number, fuel);
    match a.out
    case Raised(y) => Ret(Raised(y), a.st)
    case Returned(false) => Ret(Returned(NoResponse), a.st)
    case Returned(true) =>
      if fuel == 0 then Ret(Raised(RecursionError), a.st) else Fetch(e, a.st, url, number, fuel - 1)
  }

  /** `get_playlist`: False for an unknown channel, otherwise the dispatch on its playlist URL. */
  function GetPlaylist(e: Env, s: State, number: string, fuel: nat): Ret<Fetched> {
    match e.channelIdOf(Some(number))
    case None => Ret(Returned(Unknown), s)
    case Some(id) => Fetch(e, s, PlaylistUrl(id), Some(number), fuel)
  }

  /**
   * `get_segment`: the dispatch on the segment's URL, renewing the token of the channel
   * number its channel id maps to. It never returns False.
   */
  function GetSegment(e: Env, s: State, name: string, fuel: nat): Ret<Fetched> {
    Fetch(e, s, SegmentUrl(name), e.channelNumberOf(SegmentChannel(name)), fuel)
  }

  // ----- SiriusHandler -----

  /** `path.split('/')[-1][:-5]`: the last path component without its five-character suffix. */
  function PlaylistChannel(path: string): string {
    var parts := Split(path, '/');
    DropLast(parts[|parts| - 1], 5)
  }

  /**
   * `handle_playlist`: the answer it sends, or None where it returns False. False from
   * `get_playlist` is not None, so reading its `status_code` raises AttributeError. On
   * a 404 the log message formats the channel number, a string, with `%d`, which raises
   * TypeError before any answer is sent.
   */
  function HandlePlaylist(e: Env, s: State, path: string): Ret<Option<Answer>> {
    var p := GetPlaylist(e, s, PlaylistChannel(path), e.depth);
    match p.out
    case Raised(x) => Ret(Raised(x), p.st)
    case Returned(Unknown) => Ret(Raised(AttributeError), p.st)
    case Returned(NoResponse) => Ret(Returned(None), p.st)
    case Returned(Got(r)) =>
      if r.Response? && r.statusCode == 404 then Ret(Raised(TypeError), p.st)
      else if r.Response? && r.statusCode == 200 then Ret(Returned(Some(Answer(200, Some(ManifestType), Text(r.text)))), p.st)
      else Ret(Returned(None), p.st)
  }

  /** What the attempt loop of `handle_segment` leaves in `res`, and the state after it. */
  datatype Tried = Tried(res: Fetched, st: State)

  /**
   * The loop of `handle_segment`: at most `n` calls of `get_segment`, stopping at the
   * first that does not raise; when every call raises, `res` keeps its initial None.
   */
  function SegmentTries(e: Env, s: State, name: string, n: nat): Tried
    decreases n
  {
    if n == 0 then Tried(NoResponse, s)
    else
      var g := GetSegment(e, s, name, e.depth);
      if g.out.Returned? then Tried(g.out.value, g.st) else SegmentTries(e, g.st, name, n - 1)
  }

  /** The number of attempts `handle_segment` makes. */
  const SegmentTryLimit := 3

  /** `path[1:]`: the path without its first character, empty for an empty path. */
  function SegmentName(path: string): string {
    if |path| >= 1 then path[1..] else []
  }

  /**
   * `handle_segment`: the answer it sends, or None where it returns False. The body is
   * read only from a 200 response, so the 404 branch after the loop is never taken.
   */
  function HandleSegment(e: Env, s: State, path: string): Ret<Option<Answer>> {
    var t := SegmentTries(e, s, SegmentName(path), SegmentTryLimit);
    var data := if t.res.Got? && t.res.response.Response? && t.res.response.statusCode == 200
      then Some(t.res.response.content) else None;
    if !t.res.Got? || data.None? then Ret(Returned(None), t.st)
    else if t.res.response.statusCode == 404 then Ret(Returned(Some(Status(404))), t.st)
    else if t.res.response.statusCode == 200 then Ret(Returned(Some(Answer(200, Some(AudioType), Bytes(data.value)))), t.st)
    else Ret(Returned(None), t.st)
  }

  /** What `do_GET` sends back, None when nothing is sent, and the state after it. */
  datatype Served = Served(answer: Option<Answer>, st: State)

  /**
   * `do_GET`: a path containing `/key/` anywhere gets the key; then `.m3u8` and `.aac`
   * go to their handlers, whose False becomes 500; any other path gets 404. An
   * exception is swallowed by the bare `except` and nothing is sent.
   */
  function DoGet(e: Env, s: State, path: string): Served {
    if Contains(path, "/key/") then Served(Some(KeyAnswer()), s)
    else if EndsWith(path, ".m3u8") || EndsWith(path, ".aac") then
      var h := if EndsWith(path, ".m3u8") then HandlePlaylist(e, s, path) else HandleSegment(e, s, path);
      match h.out
      case Raised(_) => Served(None, h.st)
      case Returned(None) => Served(Some(Status(500)), h.st)
      case Returned(Some(a)) => Served(Some(a), h.st)
    else Served(Some(Status(404)), s)
  }
}
