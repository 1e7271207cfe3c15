/**
 * The `SiriusXM` object of sxm.py as a class whose fields the methods update in place:
 * the session's cookie jar (replaced by `reset_session`), the `playlists` cache, the
 * `channels` cache and the exchanges made so far. Every method is held to the
 * state-passing function of `SxmModel` it implements, so what `SxmFacts` proves about
 * those functions holds of the object.
 */
module Sxm {
  import opened Wrappers
  import opened Cookies
  import opened Provider
  import opened Http
  import Text
  import Hls
  import M = SxmModel

  /**
   * The index of the first entry whose size is "LARGE": the loop over `hlsAudioInfos`
   * in `get_playlist_url`.
   */
  method FindLarge(infos: seq<HlsAudioInfo>) returns (r: Option<nat>)
    ensures r == M.FirstLarge(infos)
  {
    var i := 0;
    while i < |infos|
      invariant 0 <= i <= |infos|
      invariant forall j :: 0 <= j < i ==> infos[j].size != "LARGE"
    {
      if infos[i].size == "LARGE" {
        return Some(i);
      }
      i := i + 1;
    }
    return None;
  }

  /**
   * The loop of `get_channel` over the channel list, with its early return: the first
   * entry that matches the key and whose GUID and id can be read. An entry that raises
   * while being read is skipped.
   */
  method FindChannel(entries: seq<ChannelEntry>, key: string) returns (r: Option<M.ChannelRef>)
    ensures r == M.Lookup(entries, key)
  {
    var i := 0;
    while i < |entries|
      invariant 0 <= i <= |entries|
      invariant M.Lookup(entries, key) == M.Lookup(entries[i..], key)
    {
      var x := entries[i];
      assert entries[i..][1..] == entries[i + 1..];
      if M.Matches(x, key) && M.Usable(x) {
        return Some(M.ChannelRef(x.containerGuid.value, x.channelId.value));
      }
      i := i + 1;
    }
    return None;
  }

  /** One round of a retry loop: what the attempt gave decides whether the loop goes on. */
  lemma RetryStep<T>(n: nat, body: M.State -> M.Ret<T>, s: M.State, a: M.Ret<T>)
    requires n > 0 && body(s) == a
    ensures M.Retry(n, body, s) == if a.out.Returned? then a else M.Retry(n - 1, body, a.st)
  {
  }

  class SiriusXM {
    /** The provider, the SXMDATA decoder and the recursion depth this object runs against. */
    const env: M.Env
    var jar: Jar
    var playlists: map<string, Option<string>>
    var channels: seq<ChannelEntry>
    var log: seq<M.Exchange>

    /** The fields as the state the model functions pass along. */
    function St(): M.State
      reads this
    {
      M.State(jar, playlists, channels, log)
    }

    /** A new object: a fresh session and empty caches. */
    constructor (env: M.Env)
      ensures this.env == env && St() == M.Initial()
    {
      this.env := env;
      jar := map[];
      playlists := map[];
      channels := [];
      log := [];
    }

    /** One exchange with the provider through the session. */
    method Send(req: M.Request) returns (reply: Reply)
      modifies this
      ensures M.Sent(reply, St()) == M.Send(env, old(St()), req)
    {
      reply := env.provider(req, jar, |log|);
      log := log + [M.Exchange(req, jar, reply)];
      jar := M.Received(jar, reply);
    }

    /** `reset_session`: a new session, with none of the old cookies. */
    method ResetSession()
      modifies this
      ensures St() == old(St()).(jar := map[])
    {
      jar := map[];
    }

    /** `session.get`/`session.post` on the REST API. */
    method Rest(req: M.Request) returns (r: Outcome<Option<Doc>>)
      modifies this
      ensures M.Ret(r, St()) == M.Rest(env, old(St()), req)
    {
      var reply := Send(req);
      match reply
      case Unreachable => r := Raised(ConnectionError);
      case Response(code, _, json, _, _) => r := Returned(if code == 200 then json else None);
    }

    /** `login`. */
    method Login() returns (r: Outcome<bool>)
      modifies this
      ensures M.Ret(r, St()) == M.Login(env, old(St()))
    {
      var p := Rest(M.RestPost(M.LoginMethod));
      match p
      case Raised(x) => r := Raised(x);
      case Returned(None) => r := Raised(TypeError);
      case Returned(Some(d)) => r := Returned(d.status == Some(1) && IsLoggedIn(jar));
    }

    /** The resume exchange of `authenticate`. */
    method Resume() returns (r: Outcome<bool>)
      modifies this
      ensures M.Ret(r, St()) == M.Resume(env, old(St()))
    {
      var p := Rest(M.RestPost(M.ResumeMethod));
      match p
      case Raised(x) => r := Raised(x);
      case Returned(None) => r := Returned(false);
      case Returned(Some(d)) => r := Returned(d.status == Some(1) && IsSessionAuthenticated(jar));
    }

    /** One attempt of `authenticate`. */
    method AuthenticateAttempt() returns (r: Outcome<bool>)
      modifies this
      ensures M.Ret(r, St()) == M.AuthenticateAttempt(env, old(St()))
    {
      if !IsLoggedIn(jar) {
        var l := Login();
        match l
        case Raised(x) => return Raised(x);
        case Returned(false) =>
          ResetSession();
          return Raised(AuthenticationError);
        case Returned(true) =>
      }
      r := Resume();
    }

    /** `authenticate` under its decorator: up to ten attempts, RetryError after ten raises. */
    method Authenticate() returns (r: Outcome<bool>)
      modifies this
      ensures M.Ret(r, St()) == M.Authenticate(env, old(St()))
    {
      var n: nat := M.AuthenticateAttempts;
      while n > 0
        invariant M.Retry(n, M.AuthBody(env), St()) == M.Authenticate(env, old(St()))
      {
        ghost var before := St();
        r := AuthenticateAttempt();
        RetryStep(n, M.AuthBody(env), before, M.Ret(r, St()));
        if r.Returned? {
          return;
        }
        n := n - 1;
      }
      r := Raised(RetryError);
    }

    /** One attempt of `get`. */
    method GetAttempt(m: string, q: M.Query) returns (r: Outcome<Option<Doc>>)
      modifies this
      ensures M.Ret(r, St()) == M.GetAttempt(env, m, q, old(St()))
    {
      if IsSessionAuthenticated(jar) {
        var a := Authenticate();
        match a
        case Raised(x) => return Raised(x);
        case Returned(false) => return Returned(None);
        case Returned(true) =>
      }
      r := Rest(M.RestGet(m, q));
    }

    /** `get` under its decorator of ten attempts. */
    method Get(m: string, q: M.Query) returns (r: Outcome<Option<Doc>>)
      modifies this
      ensures M.Ret(r, St()) == M.Get(env, old(St()), m, q)
    {
      var n: nat := M.GetAttempts;
      while n > 0
        invariant M.Retry(n, M.GetBody(env, m, q), St()) == M.Get(env, old(St()), m, q)
      {
        ghost var before := St();
        r := GetAttempt(m, q);
        RetryStep(n, M.GetBody(env, m, q), before, M.Ret(r, St()));
        if r.Returned? {
          return;
        }
        n := n - 1;
      }
      r := Raised(RetryError);
    }
    /** `get_now_playing`. */
    method NowPlaying(guid: string, channelId: string) returns (r: Outcome<Option<Doc>>)
      modifies this
      ensures M.Ret(r, St()) == M.NowPlaying(env, old(St()), guid, channelId)
    {
      r := Get(M.NowPlayingMethod, M.NowPlayingQuery(guid, channelId));
    }

    /** `get_playlist_variant_url`. */
    method VariantUrl(url: string) returns (r: Outcome<Option<string>>)
      modifies this
      ensures M.Ret(r, St()) == M.VariantUrl(env, old(St()), url)
    {
      var reply := Send(M.MediaRequest(env, St(), M.VariantSite, url));
      match reply
      case Unreachable => r := Raised(ConnectionError);
      case Response(code, _, _, text, _) => r := Returned(if code != 200 then None else Hls.VariantOf(url, text));
    }

    /**
     * `get_playlist_url`, its recursion on an expired session written as a loop over the
     * remaining attempts.
     */
    method GetPlaylistUrl(guid: string, channelId: string, useCache: bool, maxAttempts: nat) returns (r: Outcome<Option<string>>)
      modifies this
      ensures M.Ret(r, St()) == M.PlaylistUrl(env, old(St()), guid, channelId, useCache, maxAttempts)
    {
      var budget := maxAttempts;
      while true
        invariant M.PlaylistUrl(env, St(), guid, channelId, useCache, budget)
          == M.PlaylistUrl(env, old(St()), guid, channelId, useCache, maxAttempts)
        decreases budget
      {
        if useCache && channelId in playlists {
          return Returned(playlists[channelId]);
        }
        var d := NowPlaying(guid, channelId);
        if d.Raised? {
          return Raised(d.exc);
        }
        if d.value.None? {
          return Raised(TypeError);
        }
        var doc := d.value.value;
        var code := M.MessageCode(doc);
        if code.None? {
          return Returned(None);
        }
        if code.value == 201 || code.value == 208 {
          if budget == 0 {
            return Returned(None);
          }
          var a := Authenticate();
          if a.Raised? {
            return Raised(a.exc);
          }
          if !a.value {
            return Returned(None);
          }
          budget := budget - 1;
        } else if code.value != 100 || doc.hlsAudioInfos.None? {
          return Returned(None);
        } else {
          var infos := doc.hlsAudioInfos.value;
          var i := FindLarge(infos);
          if i.None? {
            return Returned(None);
          }
          var v := VariantUrl(Text.Replace(infos[i.value].url, M.LivePlaceholder, M.LivePrimaryHls));
          if v.Raised? {
            return Raised(v.exc);
          }
          playlists := playlists[channelId := v.value];
          return Returned(playlists[channelId]);
        }
      }
    }

    /** The fetch of the channel list in `get_channels`. */
    method FetchChannels() returns (r: Outcome<M.Listing>)
      modifies this
      ensures M.Ret(r, St()) == M.FetchChannels(env, old(St()))
    {
      var d := Get(M.ChannelListMethod, M.ChannelListQuery);
      match d
      case Raised(x) => r := Raised(x);
      case Returned(None) => r := Returned(M.FetchFailed);
      case Returned(Some(doc)) =>
        match doc.liveChannelResponses
        case None => r := Returned(M.Channels([]));
        case Some(l) =>
          channels := l;
          r := Returned(M.Channels(l));
    }

    /** `get_channels`: the cache, or an authentication whose outcome is ignored and a fetch. */
    method GetChannels() returns (r: Outcome<M.Listing>)
      modifies this
      ensures M.Ret(r, St()) == M.GetChannels(env, old(St()))
    {
      if |channels| > 0 {
        return Returned(M.Channels(channels));
      }
      if !IsSessionAuthenticated(jar) {
        var ignored := Authenticate();
      }
      r := FetchChannels();
    }

    /** `get_channel`. */
    method GetChannel(name: string) returns (r: Outcome<Option<M.ChannelRef>>)
      modifies this
      ensures M.Ret(r, St()) == M.GetChannel(env, old(St()), name)
    {
      var c := GetChannels();
      match c
      case Raised(x) => r := Raised(x);
      case Returned(FetchFailed) => r := Returned(None);
      case Returned(Channels(l)) =>
        var found := FindChannel(l, Text.Lower(name));
        r := Returned(found);
    }

    /** `get_playlist` under its decorator of 25 attempts; `fuel` bounds its recursion on 403. */
    method GetPlaylist(name: string, useCache: bool, fuel: nat) returns (r: Outcome<Option<string>>)
      modifies this
      ensures M.Ret(r, St()) == M.GetPlaylist(env, old(St()), name, useCache, fuel)
      decreases fuel, 2
    {
      var n: nat := M.PlaylistAttempts;
      while n > 0
        invariant M.Retry(n, M.PlaylistBody(env, name, useCache, fuel), St())
          == M.GetPlaylist(env, old(St()), name, useCache, fuel)
      {
        ghost var before := St();
        r := PlaylistAttempt(name, useCache, fuel);
        RetryStep(n, M.PlaylistBody(env, name, useCache, fuel), before, M.Ret(r, St()));
        if r.Returned? {
          return;
        }
        n := n - 1;
      }
      r := Raised(RetryError);
    }

    /** One attempt of `get_playlist`, up to the fetch of the media playlist. */
    method PlaylistAttempt(name: string, useCache: bool, fuel: nat) returns (r: Outcome<Option<string>>)
      modifies this
      ensures M.Ret(r, St()) == M.PlaylistAttempt(env, name, useCache, fuel, old(St()))
      decreases fuel, 1
    {
      var c := GetChannel(name);
      if c.Raised? {
        return Raised(c.exc);
      }
      if c.value.None? || c.value.value.guid == "" || c.value.value.id == "" {
        return Returned(None);
      }
      var ref := c.value.value;
      var u := GetPlaylistUrl(ref.guid, ref.id, useCache, M.PlaylistUrlBudget);
      if u.Raised? {
        return Raised(u.exc);
      }
      if u.value.None? {
        return Raised(MissingSchema);
      }
      r := FetchPlaylist(name, u.value.value, fuel);
    }

    /** The fetch of the media playlist and its rewrite. */
    method FetchPlaylist(name: string, url: string, fuel: nat) returns (r: Outcome<Option<string>>)
      modifies this
      ensures M.Ret(r, St()) == M.FetchPlaylist(env, old(St()), name, url, fuel)
      decreases fuel, 0
    {
      var reply := Send(M.MediaRequest(env, St(), M.PlaylistSite, url));
      match reply
      case Unreachable => r := Raised(AttributeError);
      case Response(code, _, _, text, _) =>
        if code == 403 {
          if fuel == 0 {
            r := Raised(RecursionError);
          } else {
            r := GetPlaylist(name, false, fuel - 1);
          }
        } else if code != 200 {
          r := Returned(None);
        } else {
          var m := Hls.RewritePlaylist(text, url);
          r := if m.None? then Raised(IndexError) else Returned(m);
        }
    }

    /** One attempt of `get_segment`. */
    method SegmentAttempt(path: string, fuel: nat) returns (r: Outcome<Option<seq<bv8>>>)
      modifies this
      ensures M.Ret(r, St()) == M.SegmentAttempt(env, path, fuel, old(St()))
    {
      var reply := Send(M.MediaRequest(env, St(), M.SegmentSite, M.SegmentUrl(path)));
      match reply
      case Unreachable => r := Raised(ConnectionError);
      case Response(code, _, _, _, content) =>
        if code == 403 {
          var parts := Text.SplitMax(path, '/', 2);
          if |parts| < 2 {
            return Raised(IndexError);
          }
          var p := GetPlaylist(parts[1], false, fuel);
          r := if p.Raised? then Raised(p.exc) else Raised(SegmentRetrievalError);
        } else if code != 200 {
          r := Returned(None);
        } else {
          r := Returned(Some(content));
        }
    }

    /** `get_segment` under its decorator of five attempts. */
    method GetSegment(path: string, fuel: nat) returns (r: Outcome<Option<seq<bv8>>>)
      modifies this
      ensures M.Ret(r, St()) == M.GetSegment(env, old(St()), path, fuel)
    {
      var n: nat := M.SegmentAttempts;
      while n > 0
        invariant M.Retry(n, M.SegmentBody(env, path, fuel), St()) == M.GetSegment(env, old(St()), path, fuel)
      {
        ghost var before := St();
        r := SegmentAttempt(path, fuel);
        RetryStep(n, M.SegmentBody(env, path, fuel), before, M.Ret(r, St()));
        if r.Returned? {
          return;
        }
        n := n - 1;
      }
      r := Raised(RetryError);
    }
  }

  /** The request handler `make_sirius_handler` builds around one shared `SiriusXM` object. */
  class SiriusHandler {
    const sxm: SiriusXM

    constructor (sxm: SiriusXM)
      ensures this.sxm == sxm
    {
      this.sxm := sxm;
    }

    /** `do_GET`: the answer sent, or Raised when an exception escapes and nothing is sent. */
    method DoGet(path: string) returns (r: Outcome<Answer>)
      modifies sxm
      ensures M.Ret(r, sxm.St()) == M.Handle(sxm.env, old(sxm.St()), path)
    {
      match M.RouteOf(path)
      case PlaylistRoute =>
        var parts := Text.RSplitOnce(path, '/');
        if |parts| < 2 {
          return Raised(IndexError);
        }
        var data := sxm.GetPlaylist(Text.DropLast(parts[1], 5), true, sxm.env.depth);
        if data.Raised? {
          return Raised(data.exc);
        }
        if data.value.None? || data.value.value == "" {
          return Returned(Status(500));
        }
        r := Returned(Answer(200, Some(ManifestType), Text(data.value.value)));
      case SegmentRoute =>
        var data := sxm.GetSegment(path[1..], sxm.env.depth);
        if data.Raised? {
          return Raised(data.exc);
        }
        if data.value.None? || data.value.value == [] {
          return Returned(Status(500));
        }
        r := Returned(Answer(200, Some(AudioType), Bytes(data.value.value)));
      case KeyRoute => r := Returned(KeyAnswer());
      case OtherRoute => r := Returned(Status(500));
    }
  }
}
