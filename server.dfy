/**
 * The `SiriusXM` object of server.py as a class: its session's cookie jar, which the
 * login and now-playing replies update, and the exchanges made so far. Each method is
 * held to the `ServerModel` function it implements. The unbounded recursion of the
 * Python code is bounded by `fuel`, as in the model.
 */
module Server {
  import opened Wrappers
  import opened Text
  import opened Cookies
  import opened Provider
  import opened Http
  import M = ServerModel
  import F = ServerFacts

  class SiriusXM {
    /** The provider, the channel maps and the recursion depth this object runs against. */
    const env: M.Env
    var jar: Jar
    var log: seq<M.Exchange>

    /** The fields as the state the model functions pass along. */
    function St(): M.State
      reads this
    {
      M.State(jar, log)
    }

    /** A new object with a fresh session; `__init__` does not log in. */
    constructor (env: M.Env)
      ensures this.env == env && St() == M.State(map[], [])
    {
      this.env := env;
      jar := map[];
      log := [];
    }

    /** One exchange through the session; a response's cookies are stored in it. */
    method Send(req: M.Request) returns (reply: Reply)
      modifies this
      ensures M.Sent(reply, St()) == M.Send(env, old(St()), req)
    {
      reply := env.provider(req, jar, |log|);
      log := log + [M.Exchange(req, jar, reply)];
      if reply.Response? {
        jar := jar + reply.setCookies;
      }
    }

    /** `login`. */
    method Login() returns (r: Outcome<bool>)
      modifies this
      ensures M.Ret(r, St()) == M.Login(env, old(St()))
    {
      var reply := Send(M.Post(M.LoginUrl()));
      match reply
      case Unreachable => r := Raised(ConnectionError);
      case Response(code, _, json, _, _) =>
        r := Returned(code == 200 && json.Some? && json.value.status == Some(1));
    }

    /** `get_auth_token`; a nested call that would pass the recursion limit gives False. */
    method GetAuthToken(number: Option<string>, fuel: nat) returns (r: Outcome<bool>)
      modifies this
      ensures M.Ret(r, St()) == M.AuthToken(env, old(St()), number, fuel)
      decreases fuel, 1
    {
      var id := env.channelIdOf(number);
      if id.None? {
        return Returned(false);
      }
      ghost var s0 := St();
      var reply := Send(M.Get(M.NowPlayingUrl(id.value)));
      F.AuthTokenSends(env, s0, number, fuel);
      match reply
      case Unreachable => r := Raised(ConnectionError);
      case Response(code, cookies, json, _, _) =>
        if code != 200 || json.None? || json.value.status.None? {
          r := Returned(false);
        } else if json.value.status == Some(0) {
          F.TokenExpired(env, M.Sent(reply, St()), number, fuel);
          r := Relogin(number, fuel);
        } else {
          r := Returned(TokenCookie in cookies);
        }
    }

    /**
     * The expired-session branch of `get_auth_token`: log in and ask again. Its bare
     * `except` turns a raising login or retry into False.
     */
    method Relogin(number: Option<string>, fuel: nat) returns (r: Outcome<bool>)
      modifies this
      ensures M.Ret(r, St()) == M.Relogin(env, old(St()), number, fuel)
      decreases fuel, 0
    {
      ghost var s0 := St();
      var l := Login();
      if l != Returned(true) || fuel == 0 {
        F.ReloginFails(env, s0, number, fuel);
        return Returned(false);
      }
      F.ReloginRetried(env, s0, number, fuel);
      var t := GetAuthToken(number, fuel - 1);
      r := Returned(t == Returned(true));
    }

    /**
     * The status dispatch `get_playlist` and `get_segment` both carry, for a GET of `url`
     * whose token is renewed through channel `number`. Their recursive calls compute the
     * same URL and number again, so the retry calls the dispatch directly.
     */
    method Dispatch(url: string, number: Option<string>, fuel: nat) returns (r: Outcome<M.Fetched>)
      modifies this
      ensures M.Ret(r, St()) == M.Fetch(env, old(St()), url, number, fuel)
      decreases fuel, 1
    {
      ghost var s0 := St();
      var reply := Send(M.Get(url));
      ghost var x := M.Sent(reply, St());
      F.FetchSends(env, s0, url, number, fuel);
      if reply.Unreachable? {
        return Raised(ConnectionError);
      }
      if reply.statusCode == 200 {
        r := Returned(M.Got(reply));
      } else if reply.statusCode == 403 {
        F.ForbiddenRenews(env, x, url, number, fuel);
        r := Renew(url, number, fuel);
      } else if reply.statusCode == 503 {
        if fuel == 0 {
          r := Raised(RecursionError);
        } else {
          F.UnavailableRetries(env, x, url, number, fuel);
          r := Dispatch(url, number, fuel - 1);
        }
      } else {
        r := Returned(M.NoResponse);
      }
    }

    /** The 403 branch: retry only when `get_auth_token` grants a new token. */
    method Renew(url: string, number: Option<string>, fuel: nat) returns (r: Outcome<M.Fetched>)
      modifies this
      ensures M.Ret(r, St()) == M.Renew(env, old(St()), url, number, fuel)
      decreases fuel, 0
    {
      ghost var s0 := St();
      var a := GetAuthToken(number, fuel);
      if a.Raised? {
        r := Raised(a.exc);
      } else if !a.value {
        r := Returned(M.NoResponse);
      } else if fuel == 0 {
        r := Raised(RecursionError);
      } else {
        F.RenewRetries(env, s0, url, number, fuel);
        r := Dispatch(url, number, fuel - 1);
      }
    }

    /** `get_playlist`: False for an unknown channel, otherwise the dispatch on its playlist URL. */
    method GetPlaylist(number: string, fuel: nat) returns (r: Outcome<M.Fetched>)
      modifies this
      ensures M.Ret(r, St()) == M.GetPlaylist(env, old(St()), number, fuel)
    {
      var id := env.channelIdOf(Some(number));
      if id.None? {
        return Returned(M.Unknown);
      }
      r := Dispatch(M.PlaylistUrl(id.value), Some(number), fuel);
    }

    /** `get_segment`: the dispatch on the segment URL, renewing the token of its channel. */
    method GetSegment(name: string, fuel: nat) returns (r: Outcome<M.Fetched>)
      modifies this
      ensures M.Ret(r, St()) == M.GetSegment(env, old(St()), name, fuel)
    {
      var channel := SplitMax(name, '_', 1)[0];
      r := Dispatch(M.SegmentUrl(name), env.channelNumberOf(channel), fuel);
    }
  }

  /** `SiriusHandler` and the `SiriusXM` object all its instances share. */
  class SiriusHandler {
    const sxm: SiriusXM

    constructor (sxm: SiriusXM)
      ensures this.sxm == sxm
    {
      this.sxm := sxm;
    }

    /** `handle_playlist`: the answer sent, or None where it returns False. */
    method HandlePlaylist(path: string) returns (r: Outcome<Option<Answer>>)
      modifies sxm
      ensures M.Ret(r, sxm.St()) == M.HandlePlaylist(sxm.env, old(sxm.St()), path)
    {
      var p := sxm.GetPlaylist(M.PlaylistChannel(path), sxm.env.depth);
      match p
      case Raised(x) => r := Raised(x);
      case Returned(Unknown) => r := Raised(AttributeError);
      case Returned(NoResponse) => r := Returned(None);
      case Returned(Got(res)) =>
        if res.Response? && res.statusCode == 404 {
          r := Raised(TypeError);
        } else if res.Response? && res.statusCode == 200 {
          r := Returned(Some(Answer(200, Some(ManifestType), Text(res.text))));
        } else {
          r := Returned(None);
        }
    }

    /**
     * `handle_segment`: up to three calls of `get_segment`, leaving the loop at the first
     * that does not raise; then the answer sent, or None where it returns False.
     */
    method HandleSegment(path: string) returns (r: Outcome<Option<Answer>>)
      modifies sxm
      ensures M.Ret(r, sxm.St()) == M.HandleSegment(sxm.env, old(sxm.St()), path)
    {
      var name := M.SegmentName(path);
      ghost var tried := M.SegmentTries(sxm.env, sxm.St(), name, M.SegmentTryLimit);
      var res: M.Fetched := M.NoResponse;
      var data: Option<seq<bv8>> := None;
      for attempts := 0 to M.SegmentTryLimit
        invariant M.SegmentTries(sxm.env, sxm.St(), name, M.SegmentTryLimit - attempts) == tried
        invariant res == M.NoResponse && data == None
      {
        ghost var before := sxm.St();
        var g := sxm.GetSegment(name, sxm.env.depth);
        assert M.SegmentTries(sxm.env, before, name, M.SegmentTryLimit - attempts)
          == if g.Returned? then M.Tried(g.value, sxm.St())
             else M.SegmentTries(sxm.env, sxm.St(), name, M.SegmentTryLimit - attempts - 1);
        if g.Returned? {
          res := g.value;
          data := if res.Got? && res.response.Response? && res.response.statusCode == 200
            then Some(res.response.content) else None;
          break;
        }
      }
      assert tried == M.Tried(res, sxm.St());
      if !res.Got? || data.None? {
        return Returned(None);
      }
      if res.response.statusCode == 404 {
        r := Returned(Some(Status(404)));
      } else if res.response.statusCode == 200 {
        r := Returned(Some(Answer(200, Some(AudioType), Bytes(data.value))));
      } else {
        r := Returned(None);
      }
    }

    /** `do_GET`: the answer sent, None when an exception silenced it. */
    method DoGet(path: string) returns (answer: Option<Answer>)
      modifies sxm
      ensures M.Served(answer, sxm.St()) == M.DoGet(sxm.env, old(sxm.St()), path)
    {
      if Contains(path, "/key/") {
        return Some(KeyAnswer());
      }
      if !EndsWith(path, ".m3u8") && !EndsWith(path, ".aac") {
        return Some(Status(404));
      }
      var h;
      if EndsWith(path, ".m3u8") {
        h := HandlePlaylist(path);
      } else {
        h := HandleSegment(path);
      }
      match h
      case Raised(_) => answer := None;
      case Returned(None) => answer := Some(Status(500));
      case Returned(Some(a)) => answer := Some(a);
    }
  }
}
