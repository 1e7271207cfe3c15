/** What the older proxy, server.py, guarantees, proved about the functions of `ServerModel`. */
module ServerFacts {
  import opened Wrappers
  import opened Text
  import opened Cookies
  import opened Provider
  import opened Http
  import opened ServerModel

  /** The exchange a request from state `s` makes. */
  function Exchanged(e: Env, s: State, req: Request): Exchange {
    Exchange(req, s.jar, e.provider(req, s.jar, |s.log|))
  }

  /** The most recent exchange. */
  function Latest(s: State): Exchange
    requires |s.log| > 0
  {
    s.log[|s.log| - 1]
  }

  // ----- login and get_auth_token -----

  /** `login` makes one POST, and its answer depends on that response alone. */
  lemma LoginStep(e: Env, s: State)
    ensures var r := Login(e, s);
      var x := Exchanged(e, s, Post(LoginUrl()));
      && r.st.log == s.log + [x]
      && (r.out.Raised? <==> x.reply.Unreachable?)
      && (r.out == Returned(true) <==>
            x.reply.Response? && x.reply.statusCode == 200 && x.reply.json.Some? && x.reply.json.value.status == Some(1))
  {
  }

  /** `get_auth_token` never shortens the log. */
  lemma {:induction false} AuthTokenGrows(e: Env, s: State, number: Option<string>, fuel: nat)
    ensures |s.log| <= |AuthToken(e, s, number, fuel).st.log|
    decreases fuel, 2
  {
    var id := e.channelIdOf(number);
    if id.Some? {
      var x := Send(e, s, Get(NowPlayingUrl(id.value)));
      TokenAnswerGrows(e, x, number, fuel);
    }
  }

  lemma {:induction false} TokenAnswerGrows(e: Env, x: Sent, number: Option<string>, fuel: nat)
    ensures |x.st.log| <= |TokenAnswer(e, x, number, fuel).st.log|
    decreases fuel, 1
  {
    if x.reply.Response? && x.reply.statusCode == 200 && x.reply.json.Some? && x.reply.json.value.status == Some(0) {
      ReloginGrows(e, x.st, number, fuel);
    }
  }

  lemma {:induction false} ReloginGrows(e: Env, s: State, number: Option<string>, fuel: nat)
    ensures |s.log| <= |Relogin(e, s, number, fuel).st.log|
    decreases fuel, 0
  {
    var l := Login(e, s);
    if l.out == Returned(true) && fuel > 0 {
      AuthTokenGrows(e, l.st, number, fuel - 1);
    }
  }

  /**
   * `get_auth_token` raises only when its own now-playing GET finds no provider: every
   * later failure, a raising login and the recursion limit included, is caught.
   */
  lemma AuthTokenRaises(e: Env, s: State, number: Option<string>, fuel: nat)
    ensures var r := AuthToken(e, s, number, fuel);
      r.out.Raised? ==>
        && e.channelIdOf(number).Some?
        && r.out == Raised(ConnectionError)
        && var x := Exchanged(e, s, Get(NowPlayingUrl(e.channelIdOf(number).value)));
           x.reply.Unreachable? && r.st.log == s.log + [x]
  {
    var id := e.channelIdOf(number);
    if id.Some? {
      var x := Send(e, s, Get(NowPlayingUrl(id.value)));
      if x.reply.Response? && x.reply.statusCode == 200 && x.reply.json.Some? && x.reply.json.value.status == Some(0) {
        assert Relogin(e, x.st, number, fuel).out.Returned?;
      }
    }
  }

  /** The last exchange was a 200 now-playing response for channel id `id` that set SXMAKTOKEN. */
  predicate TokenGranted(t: State, id: string) {
    && |t.log| > 0
    && Latest(t).request == Get(NowPlayingUrl(id))
    && Latest(t).reply.Response? && Latest(t).reply.statusCode == 200
    && TokenCookie in Latest(t).reply.setCookies
    && TokenCookie in t.jar
  }

  /**
   * True from `get_auth_token` means the channel is known and the last exchange was a
   * 200 now-playing response for it that set SXMAKTOKEN, so the session now holds a token.
   */
  lemma {:induction false} AuthTokenTrue(e: Env, s: State, number: Option<string>, fuel: nat)
    ensures var r := AuthToken(e, s, number, fuel);
      r.out == Returned(true) ==>
        e.channelIdOf(number).Some? && |r.st.log| > |s.log| && TokenGranted(r.st, e.channelIdOf(number).value)
    decreases fuel, 2
  {
    var id := e.channelIdOf(number);
    if id.Some? {
      var x := Send(e, s, Get(NowPlayingUrl(id.value)));
      TokenAnswerTrue(e, x, number, fuel);
      TokenAnswerGrows(e, x, number, fuel);
      if x.reply.Response? && x.reply.statusCode == 200 && x.reply.json.Some? && x.reply.json.value.status.Some?
        && x.reply.json.value.status != Some(0) && TokenCookie in x.reply.setCookies {
        assert Latest(x.st) == Exchanged(e, s, Get(NowPlayingUrl(id.value)));
      }
    }
  }

  lemma {:induction false} TokenAnswerTrue(e: Env, x: Sent, number: Option<string>, fuel: nat)
    ensures var r := TokenAnswer(e, x, number, fuel);
      r.out == Returned(true) && x.reply.Response? && x.reply.json.Some? && x.reply.json.value.status == Some(0) ==>
        e.channelIdOf(number).Some? && TokenGranted(r.st, e.channelIdOf(number).value)
    decreases fuel, 1
  {
    if x.reply.Response? && x.reply.statusCode == 200 && x.reply.json.Some? && x.reply.json.value.status == Some(0) {
      ReloginTrue(e, x.st, number, fuel);
    }
  }

  lemma {:induction false} ReloginTrue(e: Env, s: State, number: Option<string>, fuel: nat)
    ensures var r := Relogin(e, s, number, fuel);
      r.out == Returned(true) ==> e.channelIdOf(number).Some? && TokenGranted(r.st, e.channelIdOf(number).value)
    decreases fuel, 0
  {
    var l := Login(e, s);
    if l.out == Returned(true) && fuel > 0 {
      AuthTokenTrue(e, l.st, number, fuel - 1);
      ReloginRetried(e, s, number, fuel);
    }
  }

  /** After a successful login, the expired-session branch answers what the retry answers. */
  lemma ReloginRetried(e: Env, s: State, number: Option<string>, fuel: nat)
    requires Login(e, s).out == Returned(true) && fuel > 0
    ensures var t := AuthToken(e, Login(e, s).st, number, fuel - 1);
      Relogin(e, s, number, fuel) == Ret(Returned(t.out == Returned(true)), t.st)
  {
  }

  /** An unknown channel gives False at once; a first reply other than 200 or status 0 decides alone. */
  lemma AuthTokenDispatch(e: Env, s: State, number: Option<string>, fuel: nat)
    ensures e.channelIdOf(number).None? ==> AuthToken(e, s, number, fuel) == Ret(Returned(false), s)
    ensures e.channelIdOf(number).Some? ==>
      var x := Send(e, s, Get(NowPlayingUrl(e.channelIdOf(number).value)));
      && (x.reply.Response? && x.reply.statusCode != 200 ==> AuthToken(e, s, number, fuel) == Ret(Returned(false), x.st))
      && (x.reply.Response? && x.reply.statusCode == 200 && x.reply.json.Some?
            && x.reply.json.value.status.Some? && x.reply.json.value.status != Some(0) ==>
            AuthToken(e, s, number, fuel) == Ret(Returned(TokenCookie in x.reply.setCookies), x.st))
  {
  }

  // ----- one step at a time -----

  /** A known channel: `get_auth_token` makes its now-playing GET, and that reply decides. */
  lemma AuthTokenSends(e: Env, s: State, number: Option<string>, fuel: nat)
    requires e.channelIdOf(number).Some?
    ensures AuthToken(e, s, number, fuel)
      == TokenAnswer(e, Send(e, s, Get(NowPlayingUrl(e.channelIdOf(number).value))), number, fuel)
  {
  }

  /** Status 0 in a 200 reply: the session expired, so log in and ask again. */
  lemma TokenExpired(e: Env, x: Sent, number: Option<string>, fuel: nat)
    requires x.reply.Response? && x.reply.statusCode == 200 && x.reply.json.Some?
    requires x.reply.json.value.status == Some(0)
    ensures TokenAnswer(e, x, number, fuel) == Relogin(e, x.st, number, fuel)
  {
  }

  /** A login that does not return True, or no room for one more call, gives False. */
  lemma ReloginFails(e: Env, s: State, number: Option<string>, fuel: nat)
    requires Login(e, s).out != Returned(true) || fuel == 0
    ensures Relogin(e, s, number, fuel) == Ret(Returned(false), Login(e, s).st)
  {
  }

  /** The dispatch makes its GET, and that reply decides. */
  lemma FetchSends(e: Env, s: State, url: string, number: Option<string>, fuel: nat)
    ensures Fetch(e, s, url, number, fuel) == FetchAnswer(e, Send(e, s, Get(url)), url, number, fuel)
  {
  }

  /** A 403 reply renews the token. */
  lemma ForbiddenRenews(e: Env, x: Sent, url: string, number: Option<string>, fuel: nat)
    requires x.reply.Response? && x.reply.statusCode == 403
    ensures FetchAnswer(e, x, url, number, fuel) == Renew(e, x.st, url, number, fuel)
  {
  }

  /** A 503 reply retries, one level deeper. */
  lemma UnavailableRetries(e: Env, x: Sent, url: string, number: Option<string>, fuel: nat)
    requires x.reply.Response? && x.reply.statusCode == 503 && fuel > 0
    ensures FetchAnswer(e, x, url, number, fuel) == Fetch(e, x.st, url, number, fuel - 1)
  {
  }

  /** A renewed token retries, one level deeper. */
  lemma RenewRetries(e: Env, s: State, url: string, number: Option<string>, fuel: nat)
    requires AuthToken(e, s, number, fuel).out == Returned(true) && fuel > 0
    ensures Renew(e, s, url, number, fuel) == Fetch(e, AuthToken(e, s, number, fuel).st, url, number, fuel - 1)
  {
  }

  // ----- the shared status dispatch, get_playlist and get_segment -----

  /**
   * The dispatch ends with at least `n` exchanges in the log and never returns False; a
   * response it returns is a 200 response to its last exchange, a GET of `url`.
   */
  predicate Fetches(n: nat, url: string, r: Ret<Fetched>) {
    && r.out != Returned(Unknown)
    && |r.st.log| >= n
    && (r.out.Returned? && r.out.value.Got? ==>
      && |r.st.log| > 0
      && Latest(r.st).request == Get(url)
      && Latest(r.st).reply == r.out.value.response
      && r.out.value.response.Response? && r.out.value.response.statusCode == 200)
  }

  lemma {:induction false} FetchStep(e: Env, s: State, url: string, number: Option<string>, fuel: nat)
    ensures Fetches(|s.log| + 1, url, Fetch(e, s, url, number, fuel))
    decreases fuel, 2
  {
    var x := Send(e, s, Get(url));
    assert Latest(x.st) == Exchange(Get(url), s.jar, x.reply);
    FetchAnswerStep(e, x, url, number, fuel);
  }

  lemma {:induction false} FetchAnswerStep(e: Env, x: Sent, url: string, number: Option<string>, fuel: nat)
    requires |x.st.log| > 0 && Latest(x.st).request == Get(url) && Latest(x.st).reply == x.reply
    ensures Fetches(|x.st.log|, url, FetchAnswer(e, x, url, number, fuel))
    decreases fuel, 1
  {
    if x.reply.Response? {
      if x.reply.statusCode == 403 {
        RenewStep(e, x.st, url, number, fuel);
        ForbiddenAnswer(e, x, url, number, fuel);
      } else if x.reply.statusCode == 503 && fuel > 0 {
        FetchStep(e, x.st, url, number, fuel - 1);
        UnavailableAnswer(e, x, url, number, fuel);
      }
    }
  }

  /** The 403 branch of the dispatch keeps to what the renewal keeps to. */
  lemma ForbiddenAnswer(e: Env, x: Sent, url: string, number: Option<string>, fuel: nat)
    requires x.reply.Response? && x.reply.statusCode == 403
    requires Fetches(|x.st.log|, url, Renew(e, x.st, url, number, fuel))
    ensures Fetches(|x.st.log|, url, FetchAnswer(e, x, url, number, fuel))
  {
  }

  /** The 503 branch of the dispatch keeps to what the retry keeps to. */
  lemma UnavailableAnswer(e: Env, x: Sent, url: string, number: Option<string>, fuel: nat)
    requires x.reply.Response? && x.reply.statusCode == 503 && fuel > 0
    requires Fetches(|x.st.log| + 1, url, Fetch(e, x.st, url, number, fuel - 1))
    ensures Fetches(|x.st.log|, url, FetchAnswer(e, x, url, number, fuel))
  {
  }

  lemma {:induction false} RenewStep(e: Env, s: State, url: string, number: Option<string>, fuel: nat)
    ensures Fetches(|s.log|, url, Renew(e, s, url, number, fuel))
    decreases fuel, 0
  {
    var a := AuthToken(e, s, number, fuel);
    AuthTokenGrows(e, s, number, fuel);
    if a.out == Returned(true) && fuel > 0 {
      FetchStep(e, a.st, url, number, fuel - 1);
    }
  }

  /**
   * A response from `get_playlist` is a 200 response to the last exchange, a GET of
   * the playlist URL of the channel's id.
   */
  lemma GetPlaylistGot(e: Env, s: State, number: string, fuel: nat)
    ensures var r := GetPlaylist(e, s, number, fuel);
      r.out.Returned? && r.out.value.Got? ==>
        && e.channelIdOf(Some(number)).Some?
        && Fetches(|s.log| + 1, PlaylistUrl(e.channelIdOf(Some(number)).value), r)
  {
    var id := e.channelIdOf(Some(number));
    if id.Some? {
      FetchStep(e, s, PlaylistUrl(id.value), Some(number), fuel);
    }
  }

  /** `get_playlist` returns False exactly when the channel number maps to no id. */
  lemma GetPlaylistUnknown(e: Env, s: State, number: string, fuel: nat)
    ensures GetPlaylist(e, s, number, fuel).out == Returned(Unknown) <==> e.channelIdOf(Some(number)).None?
  {
    var id := e.channelIdOf(Some(number));
    if id.Some? {
      FetchStep(e, s, PlaylistUrl(id.value), Some(number), fuel);
    }
  }

  /** A first reply other than 200, 403 and 503 gives None after that one exchange. */
  lemma GetPlaylistOtherStatus(e: Env, s: State, number: string, fuel: nat)
    requires e.channelIdOf(Some(number)).Some?
    ensures var x := Send(e, s, Get(PlaylistUrl(e.channelIdOf(Some(number)).value)));
      x.reply.Response? && x.reply.statusCode !in {200, 403, 503} ==>
        GetPlaylist(e, s, number, fuel) == Ret(Returned(NoResponse), x.st)
  {
    var url := PlaylistUrl(e.channelIdOf(Some(number)).value);
    assert GetPlaylist(e, s, number, fuel) == FetchAnswer(e, Send(e, s, Get(url)), url, Some(number), fuel);
  }

  /**
   * A response from `get_segment` is a 200 response to the last exchange, a GET of the
   * segment's URL; `get_segment` never returns False.
   */
  lemma GetSegmentGot(e: Env, s: State, name: string, fuel: nat)
    ensures Fetches(|s.log| + 1, SegmentUrl(name), GetSegment(e, s, name, fuel))
  {
    FetchStep(e, s, SegmentUrl(name), e.channelNumberOf(SegmentChannel(name)), fuel);
  }

  /** The channel of a segment is its name up to the first `_`, or the whole name without one. */
  lemma SegmentChannelIs(name: string)
    ensures Find(name, '_').None? ==> SegmentChannel(name) == name
    ensures Find(name, '_').Some? ==> SegmentChannel(name) == name[..Find(name, '_').value]
  {
  }

  /** So a segment `ch_rest` is fetched from the directory of channel `ch`. */
  lemma SegmentUrlOf(ch: string, rest: string)
    requires '_' !in ch
    ensures SegmentUrl(ch + "_" + rest) == HlsBaseUrl + "/" + ch + "/HLS_" + ch + "_256k_v3/" + ch + "_" + rest
  {
    FindAfter(ch, '_', rest);
    assert (ch + "_" + rest)[..|ch|] == ch;
  }

  // ----- the handler -----

  /** The channel of a playlist request `dir/number.m3u8` is `number`. */
  lemma PlaylistChannelOf(dir: string, number: string)
    requires '/' !in number
    ensures PlaylistChannel(dir + "/" + number + ".m3u8") == number
  {
    var file := number + ".m3u8";
    assert dir + "/" + number + ".m3u8" == dir + ['/'] + file;
    SplitLastAt(dir, '/', file);
    assert file[..|file| - 5] == number;
  }

  /**
   * `handle_playlist` answers exactly when `get_playlist` returned a response, and only
   * with 200 and that response's text, since no response `get_playlist` returns is a
   * 404, so its branch, which raises TypeError, is not taken; an unknown channel raises
   * AttributeError.
   */
  lemma HandlePlaylistAnswers(e: Env, s: State, path: string)
    ensures var r := HandlePlaylist(e, s, path);
      && (r.out.Returned? && r.out.value.Some? ==>
            r.out.value.value.status == 200 && r.out.value.value.contentType == Some(ManifestType))
    ensures var p := GetPlaylist(e, s, PlaylistChannel(path), e.depth);
      var r := HandlePlaylist(e, s, path);
      && r.st == p.st
      && (r.out.Returned? ==> (r.out.value.Some? <==> p.out.Returned? && p.out.value.Got?))
      && (p.out.Returned? && p.out.value.Got? && p.out.value.response.Response? ==>
            r.out == Returned(Some(Answer(200, Some(ManifestType), Text(p.out.value.response.text)))))
      && (e.channelIdOf(Some(PlaylistChannel(path))).None? ==> r == Ret(Raised(AttributeError), s))
  {
    GetPlaylistGot(e, s, PlaylistChannel(path), e.depth);
    GetPlaylistUnknown(e, s, PlaylistChannel(path), e.depth);
  }

  /**
   * What the attempt loop leaves in `res` is None or a 200 response to its last
   * exchange, a GET of the segment.
   */
  lemma {:induction false} SegmentTriesGot(e: Env, s: State, name: string, n: nat)
    ensures var t := SegmentTries(e, s, name, n);
      && !t.res.Unknown?
      && (t.res.Got? ==>
        && |t.st.log| > |s.log|
        && Latest(t.st).request == Get(SegmentUrl(name))
        && Latest(t.st).reply == t.res.response
        && t.res.response.Response? && t.res.response.statusCode == 200)
    decreases n
  {
    if n > 0 {
      var g := GetSegment(e, s, name, e.depth);
      GetSegmentGot(e, s, name, e.depth);
      if g.out.Raised? {
        SegmentTriesGot(e, g.st, name, n - 1);
      }
    }
  }

  /**
   * `handle_segment` never raises, and answers exactly when the loop kept a response:
   * with 200 and that response's bytes. The 404 branch is never taken.
   */
  lemma HandleSegmentAnswers(e: Env, s: State, path: string)
    ensures var t := SegmentTries(e, s, SegmentName(path), SegmentTryLimit);
      var r := HandleSegment(e, s, path);
      && r.out.Returned?
      && r.st == t.st
      && (r.out.value.Some? <==> t.res.Got?)
      && (t.res.Got? ==> r.out.value == Some(Answer(200, Some(AudioType), Bytes(t.res.response.content))))
  {
    SegmentTriesGot(e, s, SegmentName(path), SegmentTryLimit);
  }

  /** The provider never answers a fetch of this segment. */
  ghost predicate SegmentUnreachable(e: Env, name: string) {
    forall jar, i :: e.provider(Get(SegmentUrl(name)), jar, i) == Unreachable
  }

  /** With no provider, every one of `n` attempts raises after one exchange, and `res` stays None. */
  lemma {:induction false} UnreachableTries(e: Env, s: State, name: string, n: nat)
    requires SegmentUnreachable(e, name)
    ensures var t := SegmentTries(e, s, name, n);
      t.res == NoResponse && |t.st.log| == |s.log| + n
    decreases n
  {
    if n > 0 {
      var g := GetSegment(e, s, name, e.depth);
      var x := Send(e, s, Get(SegmentUrl(name)));
      assert x.reply == Unreachable;
      assert g == FetchAnswer(e, x, SegmentUrl(name), e.channelNumberOf(SegmentChannel(name)), e.depth);
      UnreachableTries(e, g.st, name, n - 1);
    }
  }

  /** A segment the provider never answers gets 500 after exactly three attempts. */
  lemma UnreachableSegmentServed(e: Env, s: State, path: string)
    requires EndsWith(path, ".aac") && !Contains(path, "/key/")
    requires SegmentUnreachable(e, SegmentName(path))
    ensures var r := DoGet(e, s, path);
      r.answer == Some(Status(500)) && |r.st.log| == |s.log| + SegmentTryLimit
  {
    UnreachableTries(e, s, SegmentName(path), SegmentTryLimit);
    LastOfEnding(path, ".m3u8");
    LastOfEnding(path, ".aac");
  }

  /**
   * The routing of `do_GET`: `/key/` anywhere wins and sends nothing upstream; 404 goes
   * exactly to paths none of the three tests accepts; every answer is 200, 404 or 500.
   */
  lemma DoGetRoutes(e: Env, s: State, path: string)
    ensures var r := DoGet(e, s, path);
      && (Contains(path, "/key/") ==> r == Served(Some(KeyAnswer()), s))
      && (r.answer.Some? && r.answer.value.status == 404 <==>
            !Contains(path, "/key/") && !EndsWith(path, ".m3u8") && !EndsWith(path, ".aac"))
      && (r.answer.Some? ==> r.answer.value.status in {200, 404, 500})
  {
    if !Contains(path, "/key/") {
      if EndsWith(path, ".m3u8") {
        HandlePlaylistAnswers(e, s, path);
      } else if EndsWith(path, ".aac") {
        HandleSegmentAnswers(e, s, path);
      }
    }
  }

  /**
   * A playlist or segment request is answered with what its handler returns: False
   * becomes 500, an exception is swallowed and nothing is sent, and any other answer
   * is sent as it is.
   */
  lemma DoGetHandled(e: Env, s: State, path: string)
    requires !Contains(path, "/key/") && (EndsWith(path, ".m3u8") || EndsWith(path, ".aac"))
    ensures var h := if EndsWith(path, ".m3u8") then HandlePlaylist(e, s, path) else HandleSegment(e, s, path);
      var r := DoGet(e, s, path);
      && r.st == h.st
      && (h.out.Raised? ==> r.answer == None)
      && (h.out == Returned(None) ==> r.answer == Some(Status(500)))
      && (h.out.Returned? && h.out.value.Some? ==> r.answer == h.out.value)
  {
    if EndsWith(path, ".m3u8") {
      HandledBy(e, s, path, HandlePlaylist(e, s, path));
    } else {
      HandledBy(e, s, path, HandleSegment(e, s, path));
    }
  }

  /** `do_GET`'s treatment of the result `h` of the handler the path is routed to. */
  lemma HandledBy(e: Env, s: State, path: string, h: Ret<Option<Answer>>)
    requires !Contains(path, "/key/") && (EndsWith(path, ".m3u8") || EndsWith(path, ".aac"))
    requires h == if EndsWith(path, ".m3u8") then HandlePlaylist(e, s, path) else HandleSegment(e, s, path)
    ensures var r := DoGet(e, s, path);
      && r.st == h.st
      && (h.out.Raised? ==> r.answer == None)
      && (h.out == Returned(None) ==> r.answer == Some(Status(500)))
      && (h.out.Returned? && h.out.value.Some? ==> r.answer == h.out.value)
  {
  }
}
