/** What the session logic of sxm.py guarantees, proved about the functions of `SxmModel`. */
module SxmFacts {
  import opened Wrappers
  import opened Text
  import opened Cookies
  import opened Provider
  import opened Http
  import opened SxmModel
  import Hls

  // ----- the log and the caches between two states -----

  /** The exchanges `t` made after `s`. */
  function Delta(s: State, t: State): seq<Exchange>
    requires s.log <= t.log
  {
    t.log[|s.log|..]
  }

  predicate IsPost(x: Exchange) {
    x.request.RestPost?
  }

  predicate IsRest(x: Exchange) {
    x.request.RestGet? || x.request.RestPost?
  }

  predicate IsSegmentFetch(x: Exchange) {
    x.request.MediaGet? && x.request.site == SegmentSite
  }

  predicate NotSegment(x: Exchange) {
    !IsSegmentFetch(x)
  }

  /** The log only grew from `s` to `t`, and every exchange added satisfies `p`. */
  predicate AllAfter(s: State, t: State, p: Exchange -> bool) {
    s.log <= t.log && forall i :: |s.log| <= i < |t.log| ==> p(t.log[i])
  }

  /** Neither cache changed from `s` to `t`. */
  predicate SameCaches(s: State, t: State) {
    t.playlists == s.playlists && t.channels == s.channels
  }

  lemma AllAfterChain(s: State, m: State, t: State, p: Exchange -> bool)
    requires AllAfter(s, m, p) && AllAfter(m, t, p)
    ensures AllAfter(s, t, p)
  {
    forall i | |s.log| <= i < |t.log|
      ensures p(t.log[i])
    {
      if i < |m.log| {
        assert t.log[i] == m.log[i];
      }
    }
  }

  /** The exchange a request from state `s` makes. */
  function Exchanged(e: Env, s: State, req: Request): Exchange {
    Exchange(req, s.jar, e.provider(req, s.jar, |s.log|))
  }

  // ----- retries -----

  /** A retry keeps to what each of its attempts keeps to. */
  lemma {:induction false} RetryAll<T>(n: nat, body: State -> Ret<T>, s: State, p: Exchange -> bool)
    requires forall t :: AllAfter(t, body(t).st, p)
    ensures AllAfter(s, Retry(n, body, s).st, p)
    decreases n
  {
    if n > 0 && body(s).out.Raised? {
      RetryAll(n - 1, body, body(s).st, p);
      AllAfterChain(s, body(s).st, Retry(n, body, s).st, p);
    }
  }

  /** A retry leaves the caches alone when each of its attempts does. */
  lemma {:induction false} RetryCaches<T>(n: nat, body: State -> Ret<T>, s: State)
    requires forall t :: SameCaches(t, body(t).st)
    ensures SameCaches(s, Retry(n, body, s).st)
    decreases n
  {
    if n > 0 && body(s).out.Raised? {
      RetryCaches(n - 1, body, body(s).st);
    }
  }

  /**
   * A retry whose every attempt raises: `inv(t, k)` describes the state after `k`
   * attempts, and each attempt raises and takes it to `k + 1`.
   */
  lemma {:induction false} RetryAllRaised<T>(n: nat, body: State -> Ret<T>, s: State, k: nat, inv: (State, nat) -> bool)
    requires inv(s, k)
    requires forall t, j: nat :: inv(t, j) ==> body(t).out.Raised? && inv(body(t).st, j + 1)
    ensures Retry(n, body, s).out == Raised(RetryError)
    ensures inv(Retry(n, body, s).st, k + n)
    decreases n
  {
    if n > 0 {
      RetryAllRaised(n - 1, body, body(s).st, k + 1, inv);
    }
  }

  /** A retry's log starts with what its first attempt logged. */
  lemma RetryExtendsFirst<T>(n: nat, body: State -> Ret<T>, s: State, p: Exchange -> bool)
    requires n > 0
    requires forall t :: AllAfter(t, body(t).st, p)
    ensures body(s).st.log <= Retry(n, body, s).st.log
  {
    if body(s).out.Raised? {
      RetryAll(n - 1, body, body(s).st, p);
    }
  }

  // ----- one layer at a time: what each call does to the log and the caches -----

  lemma RestStep(e: Env, s: State, req: Request)
    ensures var r := Rest(e, s, req);
      && r.st.log == s.log + [Exchanged(e, s, req)]
      && r.st.jar == Received(s.jar, Exchanged(e, s, req).reply)
      && SameCaches(s, r.st)
  {
  }

  lemma LoginStep(e: Env, s: State)
    ensures var r := Login(e, s);
      && r.st == Rest(e, s, RestPost(LoginMethod)).st
      && (r.out == Returned(true) ==> IsLoggedIn(r.st.jar))
  {
  }

  lemma ResumeStep(e: Env, s: State)
    ensures var r := Resume(e, s);
      && r.st == Rest(e, s, RestPost(ResumeMethod)).st
      && (r.out == Returned(true) ==> IsSessionAuthenticated(r.st.jar))
      && (IsLoggedIn(s.jar) ==> IsLoggedIn(r.st.jar))
  {
    RestStep(e, s, RestPost(ResumeMethod));
  }

  lemma AttemptStep(e: Env, s: State)
    ensures var r := AuthenticateAttempt(e, s);
      AllAfter(s, r.st, IsPost) && SameCaches(s, r.st) && |r.st.log| > |s.log|
  {
    if !IsLoggedIn(s.jar) {
      var l := Login(e, s);
      LoginStep(e, s);
      RestStep(e, s, RestPost(LoginMethod));
      if l.out == Returned(true) {
        ResumeStep(e, l.st);
        RestStep(e, l.st, RestPost(ResumeMethod));
        AllAfterChain(s, l.st, Resume(e, l.st).st, IsPost);
      }
    } else {
      ResumeStep(e, s);
      RestStep(e, s, RestPost(ResumeMethod));
    }
  }

  lemma AuthenticateStep(e: Env, s: State)
    ensures var r := Authenticate(e, s);
      AllAfter(s, r.st, IsPost) && SameCaches(s, r.st) && |r.st.log| > |s.log|
  {
    forall t | true
      ensures AllAfter(t, AuthBody(e)(t).st, IsPost) && SameCaches(t, AuthBody(e)(t).st)
    {
      AttemptStep(e, t);
    }
    RetryAll(AuthenticateAttempts, AuthBody(e), s, IsPost);
    RetryCaches(AuthenticateAttempts, AuthBody(e), s);
    var a := AuthenticateAttempt(e, s);
    AttemptStep(e, s);
    if a.out.Raised? {
      RetryAll(AuthenticateAttempts - 1, AuthBody(e), a.st, IsPost);
    }
  }

  lemma GetAttemptStep(e: Env, m: string, q: Query, s: State)
    ensures var r := GetAttempt(e, m, q, s);
      AllAfter(s, r.st, IsRest) && SameCaches(s, r.st) && |r.st.log| > |s.log|
  {
    if IsSessionAuthenticated(s.jar) {
      var a := Authenticate(e, s);
      AuthenticateStep(e, s);
      if a.out == Returned(true) {
        RestStep(e, a.st, RestGet(m, q));
        AllAfterChain(s, a.st, Rest(e, a.st, RestGet(m, q)).st, IsRest);
      }
    } else {
      RestStep(e, s, RestGet(m, q));
    }
  }

  lemma GetStep(e: Env, s: State, m: string, q: Query)
    ensures var r := Get(e, s, m, q);
      AllAfter(s, r.st, IsRest) && SameCaches(s, r.st) && |r.st.log| > |s.log|
  {
    forall t | true
      ensures AllAfter(t, GetBody(e, m, q)(t).st, IsRest) && SameCaches(t, GetBody(e, m, q)(t).st)
    {
      GetAttemptStep(e, m, q, t);
    }
    RetryAll(GetAttempts, GetBody(e, m, q), s, IsRest);
    RetryCaches(GetAttempts, GetBody(e, m, q), s);
    var a := GetAttempt(e, m, q, s);
    GetAttemptStep(e, m, q, s);
    if a.out.Raised? {
      RetryAll(GetAttempts - 1, GetBody(e, m, q), a.st, IsRest);
    }
  }

  lemma VariantStep(e: Env, s: State, url: string)
    ensures var r := VariantUrl(e, s, url);
      r.st.log == s.log + [Exchanged(e, s, MediaRequest(e, s, VariantSite, url))] && SameCaches(s, r.st)
  {
  }

  // ----- authenticate -----

  predicate IsResume(x: Exchange) {
    x.request == RestPost(ResumeMethod)
  }

  predicate IsLogin(x: Exchange) {
    x.request == RestPost(LoginMethod)
  }

  lemma {:induction false} AuthRetryLoggedIn(e: Env, s: State, n: nat)
    requires IsLoggedIn(s.jar)
    ensures var r := Retry(n, AuthBody(e), s);
      && AllAfter(s, r.st, IsResume)
      && (n > 0 ==> |r.st.log| > |s.log|)
      && |r.st.log| <= |s.log| + n
      && IsLoggedIn(r.st.jar)
    decreases n
  {
    if n > 0 {
      var a := AuthenticateAttempt(e, s);
      ResumeStep(e, s);
      RestStep(e, s, RestPost(ResumeMethod));
      assert a == Resume(e, s);
      if a.out.Raised? {
        AuthRetryLoggedIn(e, a.st, n - 1);
        AllAfterChain(s, a.st, Retry(n, AuthBody(e), s).st, IsResume);
      }
    }
  }

  /**
   * Once logged in, `authenticate` never logs in again: every request it makes is a
   * resume post, it makes at least one and at most ten, and the login cookie stays.
   */
  lemma AuthenticateWhenLoggedIn(e: Env, s: State)
    requires IsLoggedIn(s.jar)
    ensures var r := Authenticate(e, s);
      && |s.log| < |r.st.log| <= |s.log| + AuthenticateAttempts
      && AllAfter(s, r.st, IsResume)
      && IsLoggedIn(r.st.jar)
  {
    AuthRetryLoggedIn(e, s, AuthenticateAttempts);
  }

  /** The last exchange was a resume post answered with 200 and status 1. */
  predicate ResumedLast(log: seq<Exchange>) {
    && |log| > 0
    && log[|log| - 1].request == RestPost(ResumeMethod)
    && log[|log| - 1].reply.Response?
    && log[|log| - 1].reply.statusCode == 200
    && log[|log| - 1].reply.json.Some?
    && log[|log| - 1].reply.json.value.status == Some(1)
  }

  lemma ResumeSucceeded(e: Env, s: State)
    requires IsLoggedIn(s.jar) && Resume(e, s).out == Returned(true)
    ensures var r := Resume(e, s);
      IsLoggedIn(r.st.jar) && IsSessionAuthenticated(r.st.jar) && ResumedLast(r.st.log)
  {
    ResumeStep(e, s);
  }

  lemma AttemptSucceeded(e: Env, s: State)
    requires AuthenticateAttempt(e, s).out == Returned(true)
    ensures var r := AuthenticateAttempt(e, s);
      IsLoggedIn(r.st.jar) && IsSessionAuthenticated(r.st.jar) && ResumedLast(r.st.log)
  {
    if !IsLoggedIn(s.jar) {
      LoginStep(e, s);
      ResumeSucceeded(e, Login(e, s).st);
    } else {
      ResumeSucceeded(e, s);
    }
  }

  lemma {:induction false} AuthRetrySucceeded(e: Env, s: State, n: nat)
    requires Retry(n, AuthBody(e), s).out == Returned(true)
    ensures var r := Retry(n, AuthBody(e), s);
      IsLoggedIn(r.st.jar) && IsSessionAuthenticated(r.st.jar) && ResumedLast(r.st.log)
    decreases n
  {
    var a := AuthenticateAttempt(e, s);
    if a.out.Returned? {
      AttemptSucceeded(e, s);
    } else {
      AuthRetrySucceeded(e, a.st, n - 1);
    }
  }

  /**
   * `authenticate` returns True only with both the login cookie and the two session
   * cookies present, right after a resume post answered with status 1.
   */
  lemma AuthenticateSucceeded(e: Env, s: State)
    requires Authenticate(e, s).out == Returned(true)
    ensures var r := Authenticate(e, s);
      IsLoggedIn(r.st.jar) && IsSessionAuthenticated(r.st.jar) && ResumedLast(r.st.log)
  {
    AuthRetrySucceeded(e, s, AuthenticateAttempts);
  }

  /** A reply to the login post that makes `login` return False: parsed, but no status 1 or no login cookie. */
  predicate RejectsLogin(reply: Reply) {
    && reply.Response?
    && reply.statusCode == 200
    && reply.json.Some?
    && (reply.json.value.status != Some(1) || LoginCookie !in reply.setCookies)
  }

  lemma AttemptRejected(e: Env, s: State)
    requires !IsLoggedIn(s.jar)
    requires RejectsLogin(e.provider(RestPost(LoginMethod), s.jar, |s.log|))
    ensures var a := AuthenticateAttempt(e, s);
      && a.out == Raised(AuthenticationError)
      && a.st.jar == map[]
      && a.st.log == s.log + [Exchanged(e, s, RestPost(LoginMethod))]
  {
    var l := Login(e, s);
    RestStep(e, s, RestPost(LoginMethod));
    assert l.out == Returned(false);
  }

  /** The state after `k` rejected attempts of `authenticate` that started at `s`. */
  predicate RejectedRun(s: State, t: State, k: nat) {
    && !IsLoggedIn(t.jar)
    && (k > 0 ==> t.jar == map[])
    && |t.log| == |s.log| + k
    && AllAfter(s, t, IsLogin)
  }

  lemma RejectedStep(e: Env, s: State, t: State, k: nat)
    requires RejectedRun(s, t, k)
    requires forall jar, i :: RejectsLogin(e.provider(RestPost(LoginMethod), jar, i))
    ensures AuthBody(e)(t).out.Raised? && RejectedRun(s, AuthBody(e)(t).st, k + 1)
  {
    AttemptRejected(e, t);
  }

  /**
   * When every login is rejected, `authenticate` from a logged-out session makes
   * exactly ten login posts, resetting the session after each, and then raises
   * RetryError with an empty cookie jar.
   */
  lemma AuthenticateRejected(e: Env, s: State)
    requires !IsLoggedIn(s.jar)
    requires forall jar, i :: RejectsLogin(e.provider(RestPost(LoginMethod), jar, i))
    ensures var r := Authenticate(e, s);
      && r.out == Raised(RetryError)
      && |r.st.log| == |s.log| + AuthenticateAttempts
      && AllAfter(s, r.st, IsLogin)
      && r.st.jar == map[]
  {
    var inv := (t: State, k: nat) => RejectedRun(s, t, k);
    forall t: State, k: nat | inv(t, k)
      ensures AuthBody(e)(t).out.Raised? && inv(AuthBody(e)(t).st, k + 1)
    {
      RejectedStep(e, s, t, k);
    }
    RetryAllRaised(AuthenticateAttempts, AuthBody(e), s, 0, inv);
  }

  lemma AttemptStartsWithPost(e: Env, s: State)
    ensures var r := AuthenticateAttempt(e, s);
      |r.st.log| > |s.log| && r.st.log[|s.log|].request.RestPost?
  {
    AttemptStep(e, s);
  }

  /** The first request `authenticate` makes is a POST (a login or a resume). */
  lemma AuthenticateStartsWithPost(e: Env, s: State)
    ensures var r := Authenticate(e, s);
      |r.st.log| > |s.log| && r.st.log[|s.log|].request.RestPost?
  {
    AuthenticateStep(e, s);
  }

  lemma GetAttemptStartsWith(e: Env, m: string, q: Query, s: State)
    ensures var r := GetAttempt(e, m, q, s);
      && |r.st.log| > |s.log|
      && (!IsSessionAuthenticated(s.jar) ==> r.st.log[|s.log|].request == RestGet(m, q))
      && (IsSessionAuthenticated(s.jar) ==> r.st.log[|s.log|].request.RestPost?)
  {
    if IsSessionAuthenticated(s.jar) {
      AuthenticateStep(e, s);
      var au := Authenticate(e, s);
      if au.out == Returned(true) {
        RestStep(e, au.st, RestGet(m, q));
      }
    } else {
      RestStep(e, s, RestGet(m, q));
    }
  }

  /**
   * The quirk of `get`: its first request is the REST GET itself exactly when the
   * session is NOT authenticated; with an authenticated session it authenticates first.
   */
  lemma GetStartsWith(e: Env, s: State, m: string, q: Query)
    ensures var r := Get(e, s, m, q);
      && |r.st.log| > |s.log|
      && (!IsSessionAuthenticated(s.jar) ==> r.st.log[|s.log|].request == RestGet(m, q))
      && (IsSessionAuthenticated(s.jar) ==> r.st.log[|s.log|].request.RestPost?)
  {
    GetAttemptStartsWith(e, m, q, s);
    forall t | true
      ensures AllAfter(t, GetBody(e, m, q)(t).st, IsRest)
    {
      GetAttemptStep(e, m, q, t);
    }
    RetryExtendsFirst(GetAttempts, GetBody(e, m, q), s, IsRest);
  }

  // ----- counting the answered requests of one endpoint -----

  /** A REST GET of `endpoint` that the provider answered. */
  predicate AnsweredGet(x: Exchange, endpoint: string) {
    x.request.RestGet? && x.request.endpoint == endpoint && x.reply.Response?
  }

  function AnsweredGets(xs: seq<Exchange>, endpoint: string): nat
    decreases |xs|
  {
    if xs == [] then 0 else (if AnsweredGet(xs[0], endpoint) then 1 else 0) + AnsweredGets(xs[1..], endpoint)
  }

  lemma {:induction false} AnsweredGetsAppend(a: seq<Exchange>, b: seq<Exchange>, endpoint: string)
    ensures AnsweredGets(a + b, endpoint) == AnsweredGets(a, endpoint) + AnsweredGets(b, endpoint)
    decreases |a|
  {
    if a == [] {
      assert a + b == b;
    } else {
      assert (a + b)[0] == a[0];
      assert (a + b)[1..] == a[1..] + b;
      AnsweredGetsAppend(a[1..], b, endpoint);
    }
  }

  lemma {:induction false} NoAnsweredGets(xs: seq<Exchange>, endpoint: string)
    requires forall i :: 0 <= i < |xs| ==> xs[i].request.RestPost?
    ensures AnsweredGets(xs, endpoint) == 0
    decreases |xs|
  {
    if xs != [] {
      NoAnsweredGets(xs[1..], endpoint);
    }
  }

  /** Between `s` and `t` the provider answered at most `k` GETs of `endpoint`. */
  predicate AnswersAtMost(s: State, t: State, endpoint: string, k: nat) {
    s.log <= t.log && AnsweredGets(Delta(s, t), endpoint) <= k
  }

  lemma AnswersCompose(s: State, m: State, t: State, endpoint: string, k1: nat, k2: nat)
    requires AnswersAtMost(s, m, endpoint, k1) && AnswersAtMost(m, t, endpoint, k2)
    ensures AnswersAtMost(s, t, endpoint, k1 + k2)
  {
    assert Delta(s, t) == Delta(s, m) + Delta(m, t);
    AnsweredGetsAppend(Delta(s, m), Delta(m, t), endpoint);
  }

  lemma PostsAnswerNone(s: State, t: State, endpoint: string)
    requires AllAfter(s, t, IsPost)
    ensures AnswersAtMost(s, t, endpoint, 0)
  {
    NoAnsweredGets(Delta(s, t), endpoint);
  }

  /** One exchange is one answered GET at most, and none when the provider was unreachable. */
  lemma RestAnswers(e: Env, s: State, req: Request, endpoint: string)
    ensures var r := Rest(e, s, req);
      AnswersAtMost(s, r.st, endpoint, if r.out.Raised? then 0 else 1)
  {
    RestStep(e, s, req);
    var r := Rest(e, s, req);
    assert Delta(s, r.st) == [Exchanged(e, s, req)];
    assert AnsweredGets(Delta(s, r.st), endpoint) == (if AnsweredGet(Exchanged(e, s, req), endpoint) then 1 else 0) + AnsweredGets([], endpoint);
  }

  /** An attempt of `get` that raises got no answer to a GET; one that returns got at most one. */
  lemma GetAttemptAnswers(e: Env, m: string, q: Query, s: State, endpoint: string)
    ensures var r := GetAttempt(e, m, q, s);
      AnswersAtMost(s, r.st, endpoint, if r.out.Raised? then 0 else 1)
  {
    if IsSessionAuthenticated(s.jar) {
      var a := Authenticate(e, s);
      AuthenticateStep(e, s);
      PostsAnswerNone(s, a.st, endpoint);
      if a.out == Returned(true) {
        var r := Rest(e, a.st, RestGet(m, q));
        RestAnswers(e, a.st, RestGet(m, q), endpoint);
        AnswersCompose(s, a.st, r.st, endpoint, 0, if r.out.Raised? then 0 else 1);
      }
    } else {
      RestAnswers(e, s, RestGet(m, q), endpoint);
    }
  }

  /** A retry whose attempts get an answer only when they return gets one answer at most. */
  lemma {:induction false} RetryAnswersOnce<T>(n: nat, body: State -> Ret<T>, s: State, endpoint: string)
    requires forall t :: AnswersAtMost(t, body(t).st, endpoint, if body(t).out.Raised? then 0 else 1)
    ensures AnswersAtMost(s, Retry(n, body, s).st, endpoint, 1)
    decreases n
  {
    if n == 0 {
      assert Delta(s, s) == [];
    } else if body(s).out.Raised? {
      RetryAnswersOnce(n - 1, body, body(s).st, endpoint);
      AnswersCompose(s, body(s).st, Retry(n, body, s).st, endpoint, 0, 1);
    }
  }

  /** One `get` call gets at most one answer to its GET, whatever its ten attempts do. */
  lemma GetAnswersOnce(e: Env, s: State, m: string, q: Query, endpoint: string)
    ensures AnswersAtMost(s, Get(e, s, m, q).st, endpoint, 1)
  {
    forall t | true
      ensures var a := GetBody(e, m, q)(t); AnswersAtMost(t, a.st, endpoint, if a.out.Raised? then 0 else 1)
    {
      GetAttemptAnswers(e, m, q, t, endpoint);
    }
    RetryAnswersOnce(GetAttempts, GetBody(e, m, q), s, endpoint);
  }

  // ----- get_playlist_url -----

  /** The cache update `get_playlist_url` may make: none, or its own result stored for the channel. */
  predicate StoresAtMost(s: State, t: State, ch: string, out: Outcome<Option<string>>) {
    || t.playlists == s.playlists
    || (out.Returned? && t.playlists == s.playlists[ch := out.value])
  }

  /** No segment request, the channel list untouched, and at most the channel's own playlist cached. */
  predicate UrlStep(s: State, r: Ret<Option<string>>, ch: string) {
    AllAfter(s, r.st, NotSegment) && r.st.channels == s.channels && StoresAtMost(s, r.st, ch, r.out)
  }

  lemma UrlStepAfter(s: State, m: State, r: Ret<Option<string>>, ch: string, p: Exchange -> bool)
    requires AllAfter(s, m, p) && SameCaches(s, m) && UrlStep(m, r, ch)
    requires forall x :: p(x) ==> NotSegment(x)
    ensures UrlStep(s, r, ch)
  {
    AllAfterChain(s, m, r.st, NotSegment);
  }

  /**
   * `get_playlist_url` sends no segment request, leaves the channel list alone, and
   * changes the playlist cache only by storing its own result for the channel.
   */
  lemma {:induction false} PlaylistUrlStep(e: Env, s: State, guid: string, ch: string, useCache: bool, budget: nat)
    ensures UrlStep(s, PlaylistUrl(e, s, guid, ch, useCache, budget), ch)
    decreases budget, 1
  {
    if useCache && ch in s.playlists {
      assert Delta(s, s) == [];
    } else {
      var d := NowPlaying(e, s, guid, ch);
      GetStep(e, s, NowPlayingMethod, NowPlayingQuery(guid, ch));
      if d.out.Returned? && d.out.value.Some? && VerdictOf(d.out.value.value, budget) == Renew {
        RenewalUrlStep(e, s, guid, ch, useCache, budget);
      } else {
        FetchedStep(e, s, guid, ch, useCache, budget);
      }
    }
  }

  /** The renewal path of `PlaylistUrlStep`: `authenticate`, then the recursive call. */
  lemma {:induction false} RenewalUrlStep(e: Env, s: State, guid: string, ch: string, useCache: bool, budget: nat)
    requires !(useCache && ch in s.playlists)
    requires var d := NowPlaying(e, s, guid, ch);
      && d.out.Returned? && d.out.value.Some? && VerdictOf(d.out.value.value, budget) == Renew
      && AllAfter(s, d.st, IsRest) && SameCaches(s, d.st)
    ensures UrlStep(s, PlaylistUrl(e, s, guid, ch, useCache, budget), ch)
    decreases budget, 0
  {
    var d := NowPlaying(e, s, guid, ch);
    var a := Authenticate(e, d.st);
    AuthenticateStep(e, d.st);
    assert budget > 0;
    if a.out == Returned(true) {
      PlaylistUrlStep(e, a.st, guid, ch, useCache, budget - 1);
    }
    RenewStep(e, s, guid, ch, useCache, budget);
  }

  /** The renewal branch of `PlaylistUrlStep`, given what the inner calls keep to. */
  lemma RenewStep(e: Env, s: State, guid: string, ch: string, useCache: bool, budget: nat)
    requires !(useCache && ch in s.playlists)
    requires var d := NowPlaying(e, s, guid, ch);
      && d.out.Returned? && d.out.value.Some? && VerdictOf(d.out.value.value, budget) == Renew
      && AllAfter(s, d.st, IsRest) && SameCaches(s, d.st)
      && var a := Authenticate(e, d.st);
         && AllAfter(d.st, a.st, IsPost) && SameCaches(d.st, a.st)
         && (a.out == Returned(true) ==> UrlStep(a.st, PlaylistUrl(e, a.st, guid, ch, useCache, budget - 1), ch))
    ensures UrlStep(s, PlaylistUrl(e, s, guid, ch, useCache, budget), ch)
  {
    var d := NowPlaying(e, s, guid, ch);
    var a := Authenticate(e, d.st);
    var r := PlaylistUrl(e, s, guid, ch, useCache, budget);
    if a.out == Returned(true) {
      assert r == PlaylistUrl(e, a.st, guid, ch, useCache, budget - 1);
    } else {
      assert r.st == a.st;
    }
    UrlStepAfter(d.st, a.st, r, ch, IsPost);
    UrlStepAfter(s, d.st, r, ch, IsRest);
  }

  /** The branches of `PlaylistUrlStep` that make no recursive call. */
  lemma FetchedStep(e: Env, s: State, guid: string, ch: string, useCache: bool, budget: nat)
    requires !(useCache && ch in s.playlists)
    requires var d := NowPlaying(e, s, guid, ch);
      && AllAfter(s, d.st, IsRest) && SameCaches(s, d.st)
      && (d.out.Returned? && d.out.value.Some? ==> VerdictOf(d.out.value.value, budget) != Renew)
    ensures UrlStep(s, PlaylistUrl(e, s, guid, ch, useCache, budget), ch)
  {
    var d := NowPlaying(e, s, guid, ch);
    var r := PlaylistUrl(e, s, guid, ch, useCache, budget);
    if d.out.Returned? && d.out.value.Some? && VerdictOf(d.out.value.value, budget).Resolve? {
      var url := VerdictOf(d.out.value.value, budget).url;
      VariantStep(e, d.st, url);
    } else {
      assert r.st == d.st;
    }
    UrlStepAfter(s, d.st, r, ch, IsRest);
  }

  /**
   * The dispatch of `get_playlist_url`: no message code gives None; 201 or 208 renews
   * the session while attempts remain and gives None once they are used up; any other
   * code but 100 gives None; with 100, the first LARGE stream in the list is resolved,
   * its host placeholder replaced, and without a LARGE stream the result is None.
   */
  lemma VerdictCases(doc: Doc, budget: nat)
    ensures MessageCode(doc).None? ==> VerdictOf(doc, budget) == GiveUp
    ensures MessageCode(doc) == Some(201) || MessageCode(doc) == Some(208) ==>
      VerdictOf(doc, budget) == (if budget > 0 then Renew else GiveUp)
    ensures MessageCode(doc).Some? && MessageCode(doc).value !in {100, 201, 208} ==> VerdictOf(doc, budget) == GiveUp
    ensures MessageCode(doc) == Some(100) && doc.hlsAudioInfos.None? ==> VerdictOf(doc, budget) == GiveUp
  {
  }

  /**
   * With code 100 and a stream list, the verdict is None when no stream is LARGE, and
   * otherwise the first LARGE stream's URL with its host placeholder replaced.
   */
  lemma VerdictLarge(doc: Doc, budget: nat)
    requires MessageCode(doc) == Some(100) && doc.hlsAudioInfos.Some?
    ensures var infos := doc.hlsAudioInfos.value;
      && ((forall i :: 0 <= i < |infos| ==> infos[i].size != "LARGE") ==> VerdictOf(doc, budget) == GiveUp)
      && (forall i :: 0 <= i < |infos| && infos[i].size == "LARGE" && (forall j :: 0 <= j < i ==> infos[j].size != "LARGE") ==>
            VerdictOf(doc, budget) == Resolve(Replace(infos[i].url, LivePlaceholder, LivePrimaryHls)))
  {
    var infos := doc.hlsAudioInfos.value;
    forall i | 0 <= i < |infos| && infos[i].size == "LARGE" && (forall j :: 0 <= j < i ==> infos[j].size != "LARGE")
      ensures FirstLarge(infos) == Some(i)
    {
      FirstLargeUnique(infos, i);
    }
  }

  /** The first LARGE entry is the one with no LARGE entry before it. */
  lemma FirstLargeUnique(infos: seq<HlsAudioInfo>, i: nat)
    requires i < |infos| && infos[i].size == "LARGE"
    requires forall j :: 0 <= j < i ==> infos[j].size != "LARGE"
    ensures FirstLarge(infos) == Some(i)
  {
  }

  /**
   * With the cache in use, what `get_playlist_url` returns agrees with what the cache
   * holds for the channel afterwards, so a second call returns the same value, None
   * included, and makes no request.
   */
  lemma PlaylistUrlCached(e: Env, s: State, guid: string, ch: string, budget: nat, guid2: string, budget2: nat)
    ensures ch in s.playlists ==> PlaylistUrl(e, s, guid, ch, true, budget) == Ret(Returned(s.playlists[ch]), s)
    ensures var r := PlaylistUrl(e, s, guid, ch, true, budget);
      r.out.Returned? && ch in r.st.playlists ==>
        && r.st.playlists[ch] == r.out.value
        && PlaylistUrl(e, r.st, guid2, ch, true, budget2) == Ret(r.out, r.st)
  {
    PlaylistUrlStep(e, s, guid, ch, true, budget);
  }

  /** The now-playing data `get_playlist_url` fetched, when its call misses the cache and the data parses. */
  predicate FetchedDoc(e: Env, s: State, guid: string, ch: string, useCache: bool, doc: Doc) {
    !(useCache && ch in s.playlists) && NowPlaying(e, s, guid, ch).out == Returned(Some(doc))
  }

  /**
   * The paths of `get_playlist_url` that give up return None and store nothing: no
   * message code, 201 or 208 with no attempts left, a code other than 100, 201 and 208,
   * and code 100 with no stream list or no LARGE stream in it.
   */
  lemma PlaylistUrlNone(e: Env, s: State, guid: string, ch: string, useCache: bool, budget: nat, doc: Doc)
    requires FetchedDoc(e, s, guid, ch, useCache, doc)
    requires var c := MessageCode(doc);
      || c.None?
      || ((c == Some(201) || c == Some(208)) && budget == 0)
      || (c.Some? && c.value != 100 && c.value != 201 && c.value != 208)
      || (c == Some(100) && (doc.hlsAudioInfos.None?
            || forall i :: 0 <= i < |doc.hlsAudioInfos.value| ==> doc.hlsAudioInfos.value[i].size != "LARGE"))
    ensures var r := PlaylistUrl(e, s, guid, ch, useCache, budget);
      r.out == Returned(None) && SameCaches(s, r.st)
  {
    VerdictCases(doc, budget);
    if MessageCode(doc) == Some(100) && doc.hlsAudioInfos.Some? {
      VerdictLarge(doc, budget);
    }
    GetStep(e, s, NowPlayingMethod, NowPlayingQuery(guid, ch));
  }

  /**
   * With code 201 or 208 and attempts left, `get_playlist_url` authenticates: True asks
   * again with one attempt fewer, False gives None, and an exception escapes.
   */
  lemma PlaylistUrlRenews(e: Env, s: State, guid: string, ch: string, useCache: bool, budget: nat, doc: Doc)
    requires FetchedDoc(e, s, guid, ch, useCache, doc)
    requires (MessageCode(doc) == Some(201) || MessageCode(doc) == Some(208)) && budget > 0
    ensures var a := Authenticate(e, NowPlaying(e, s, guid, ch).st);
      var r := PlaylistUrl(e, s, guid, ch, useCache, budget);
      && (a.out == Returned(true) ==> r == PlaylistUrl(e, a.st, guid, ch, useCache, budget - 1))
      && (a.out == Returned(false) ==> r.out == Returned(None) && r.st == a.st)
      && (a.out.Raised? ==> r.out == Raised(a.out.exc) && r.st == a.st)
  {
    VerdictCases(doc, budget);
  }

  /**
   * With code 100, the first LARGE stream's URL, its host placeholder replaced, is
   * resolved to a variant URL. What that returns, None included, is returned and stored
   * for the channel, nothing else in the caches changes, and a later call that uses the
   * cache returns it with no request.
   */
  lemma PlaylistUrlResolves(e: Env, s: State, guid: string, ch: string, useCache: bool, budget: nat, doc: Doc,
                            i: nat, guid2: string, budget2: nat)
    requires FetchedDoc(e, s, guid, ch, useCache, doc)
    requires MessageCode(doc) == Some(100) && doc.hlsAudioInfos.Some?
    requires var infos := doc.hlsAudioInfos.value;
      i < |infos| && infos[i].size == "LARGE" && forall j :: 0 <= j < i ==> infos[j].size != "LARGE"
    ensures var url := Replace(doc.hlsAudioInfos.value[i].url, LivePlaceholder, LivePrimaryHls);
      var v := VariantUrl(e, NowPlaying(e, s, guid, ch).st, url);
      var r := PlaylistUrl(e, s, guid, ch, useCache, budget);
      && (v.out.Returned? ==>
            && r.out == v.out
            && r.st.playlists == s.playlists[ch := v.out.value]
            && r.st.channels == s.channels
            && PlaylistUrl(e, r.st, guid2, ch, true, budget2) == Ret(r.out, r.st))
      && (v.out.Raised? ==> r.out == v.out && SameCaches(s, r.st))
  {
    VerdictLarge(doc, budget);
    var d := NowPlaying(e, s, guid, ch);
    GetStep(e, s, NowPlayingMethod, NowPlayingQuery(guid, ch));
    VariantStep(e, d.st, Replace(doc.hlsAudioInfos.value[i].url, LivePlaceholder, LivePrimaryHls));
  }

  /** A variant fetch is no answered REST GET. */
  lemma VariantAnswersNone(e: Env, s: State, url: string, endpoint: string)
    ensures AnswersAtMost(s, VariantUrl(e, s, url).st, endpoint, 0)
  {
    var r := VariantUrl(e, s, url);
    VariantStep(e, s, url);
    assert Delta(s, r.st) == [Exchanged(e, s, MediaRequest(e, s, VariantSite, url))];
    assert AnsweredGets(Delta(s, r.st), endpoint) == AnsweredGets([], endpoint);
  }

  /**
   * `get_playlist_url` gets at most `max_attempts + 1` answers to its now-playing
   * requests: one per level of its recursion.
   */
  lemma {:induction false} PlaylistUrlAnswers(e: Env, s: State, guid: string, ch: string, useCache: bool, budget: nat)
    ensures AnswersAtMost(s, PlaylistUrl(e, s, guid, ch, useCache, budget).st, NowPlayingMethod, budget + 1)
    decreases budget
  {
    if useCache && ch in s.playlists {
      assert Delta(s, s) == [];
    } else {
      var d := NowPlaying(e, s, guid, ch);
      GetAnswersOnce(e, s, NowPlayingMethod, NowPlayingQuery(guid, ch), NowPlayingMethod);
      if d.out.Returned? && d.out.value.Some? && VerdictOf(d.out.value.value, budget) == Renew {
        var a := Authenticate(e, d.st);
        AuthenticateStep(e, d.st);
        PostsAnswerNone(d.st, a.st, NowPlayingMethod);
        if a.out == Returned(true) {
          PlaylistUrlAnswers(e, a.st, guid, ch, useCache, budget - 1);
        }
        RenewAnswers(e, s, guid, ch, useCache, budget);
      } else {
        FetchedAnswers(e, s, guid, ch, useCache, budget);
      }
    }
  }

  lemma RenewAnswers(e: Env, s: State, guid: string, ch: string, useCache: bool, budget: nat)
    requires !(useCache && ch in s.playlists)
    requires var d := NowPlaying(e, s, guid, ch);
      && d.out.Returned? && d.out.value.Some? && VerdictOf(d.out.value.value, budget) == Renew
      && AnswersAtMost(s, d.st, NowPlayingMethod, 1)
      && var a := Authenticate(e, d.st);
         && AnswersAtMost(d.st, a.st, NowPlayingMethod, 0)
         && (a.out == Returned(true) ==>
               AnswersAtMost(a.st, PlaylistUrl(e, a.st, guid, ch, useCache, budget - 1).st, NowPlayingMethod, budget))
    ensures AnswersAtMost(s, PlaylistUrl(e, s, guid, ch, useCache, budget).st, NowPlayingMethod, budget + 1)
  {
    var d := NowPlaying(e, s, guid, ch);
    var a := Authenticate(e, d.st);
    var r := PlaylistUrl(e, s, guid, ch, useCache, budget);
    if a.out == Returned(true) {
      assert r == PlaylistUrl(e, a.st, guid, ch, useCache, budget - 1);
      AnswersCompose(d.st, a.st, r.st, NowPlayingMethod, 0, budget);
    } else {
      assert r.st == a.st;
    }
    AnswersCompose(s, d.st, r.st, NowPlayingMethod, 1, budget);
  }

  lemma FetchedAnswers(e: Env, s: State, guid: string, ch: string, useCache: bool, budget: nat)
    requires !(useCache && ch in s.playlists)
    requires var d := NowPlaying(e, s, guid, ch);
      && AnswersAtMost(s, d.st, NowPlayingMethod, 1)
      && (d.out.Returned? && d.out.value.Some? ==> VerdictOf(d.out.value.value, budget) != Renew)
    ensures AnswersAtMost(s, PlaylistUrl(e, s, guid, ch, useCache, budget).st, NowPlayingMethod, budget + 1)
  {
    var d := NowPlaying(e, s, guid, ch);
    var r := PlaylistUrl(e, s, guid, ch, useCache, budget);
    if d.out.Returned? && d.out.value.Some? && VerdictOf(d.out.value.value, budget).Resolve? {
      var url := VerdictOf(d.out.value.value, budget).url;
      VariantAnswersNone(e, d.st, url, NowPlayingMethod);
      assert r.st.log == VariantUrl(e, d.st, url).st.log;
      AnswersCompose(s, d.st, r.st, NowPlayingMethod, 1, 0);
    } else {
      assert r.st == d.st;
    }
  }

  // ----- get_channels and get_channel -----

  /**
   * `get_channels` makes only REST requests and never touches the playlist cache; a
   * list it returns is the list then cached, and a failed fetch leaves the cache as it was.
   */
  lemma GetChannelsStep(e: Env, s: State)
    ensures var r := GetChannels(e, s);
      && AllAfter(s, r.st, IsRest)
      && r.st.playlists == s.playlists
      && (r.out.Returned? && r.out.value.Channels? ==> r.st.channels == r.out.value.entries)
      && (r.out != Returned(FetchFailed) || r.st.channels == s.channels)
  {
    if |s.channels| == 0 {
      var s1 := if IsSessionAuthenticated(s.jar) then s else Authenticate(e, s).st;
      if !IsSessionAuthenticated(s.jar) {
        AuthenticateStep(e, s);
      }
      FetchChannelsStep(e, s1);
      AllAfterChain(s, s1, FetchChannels(e, s1).st, IsRest);
    } else {
      assert Delta(s, s) == [];
    }
  }

  lemma FetchChannelsStep(e: Env, s: State)
    requires |s.channels| == 0
    ensures var r := FetchChannels(e, s);
      && AllAfter(s, r.st, IsRest)
      && r.st.playlists == s.playlists
      && (r.out.Returned? && r.out.value.Channels? ==> r.st.channels == r.out.value.entries)
      && (r.out != Returned(FetchFailed) || r.st.channels == s.channels)
  {
    GetStep(e, s, ChannelListMethod, ChannelListQuery);
  }

  /** Once the channel list is cached, `get_channel` is a lookup in it that makes no request. */
  lemma GetChannelCached(e: Env, s: State, name: string)
    requires |s.channels| > 0
    ensures GetChannel(e, s, name) == Ret(Returned(Lookup(s.channels, Lower(name))), s)
  {
  }

  /** `get_channel` makes only REST requests and never touches the playlist cache. */
  lemma GetChannelStep(e: Env, s: State, name: string)
    ensures var r := GetChannel(e, s, name);
      AllAfter(s, r.st, IsRest) && r.st.playlists == s.playlists
  {
    GetChannelsStep(e, s);
  }

  // ----- get_playlist and get_segment -----

  /** The fetch of the media playlist requests no segment, however deep its 403 recursion goes. */
  lemma {:induction false} FetchPlaylistStep(e: Env, s: State, name: string, url: string, fuel: nat)
    ensures AllAfter(s, FetchPlaylist(e, s, name, url, fuel).st, NotSegment)
    decreases fuel, 1
  {
    var x := Send(e, s, MediaRequest(e, s, PlaylistSite, url));
    if x.reply.Response? && x.reply.statusCode == 403 && fuel > 0 {
      GetPlaylistStep(e, x.st, name, false, fuel - 1);
      AllAfterChain(s, x.st, GetPlaylist(e, x.st, name, false, fuel - 1).st, NotSegment);
    }
  }

  lemma {:induction false} PlaylistOfStep(e: Env, s: State, name: string, ref: ChannelRef, useCache: bool, fuel: nat)
    ensures AllAfter(s, PlaylistOf(e, s, name, ref, useCache, fuel).st, NotSegment)
    decreases fuel, 2
  {
    var u := PlaylistUrl(e, s, ref.guid, ref.id, useCache, PlaylistUrlBudget);
    PlaylistUrlStep(e, s, ref.guid, ref.id, useCache, PlaylistUrlBudget);
    if u.out.Returned? && u.out.value.Some? {
      FetchPlaylistStep(e, u.st, name, u.out.value.value, fuel);
      AllAfterChain(s, u.st, FetchPlaylist(e, u.st, name, u.out.value.value, fuel).st, NotSegment);
    }
  }

  /** One attempt of `get_playlist` requests no segment. */
  lemma {:induction false} PlaylistAttemptStep(e: Env, name: string, useCache: bool, fuel: nat, s: State)
    ensures AllAfter(s, PlaylistAttempt(e, name, useCache, fuel, s).st, NotSegment)
    decreases fuel, 3
  {
    var c := GetChannel(e, s, name);
    GetChannelStep(e, s, name);
    if c.out.Returned? && c.out.value.Some? {
      var ref := c.out.value.value;
      PlaylistOfStep(e, c.st, name, ref, useCache, fuel);
      AllAfterChain(s, c.st, PlaylistOf(e, c.st, name, ref, useCache, fuel).st, NotSegment);
    }
  }

  /** `get_playlist` requests no segment. */
  lemma {:induction false} GetPlaylistStep(e: Env, s: State, name: string, useCache: bool, fuel: nat)
    ensures AllAfter(s, GetPlaylist(e, s, name, useCache, fuel).st, NotSegment)
    decreases fuel, 5
  {
    forall t | true
      ensures AllAfter(t, PlaylistBody(e, name, useCache, fuel)(t).st, NotSegment)
    {
      PlaylistAttemptStep(e, name, useCache, fuel, t);
    }
    RetryAll(PlaylistAttempts, PlaylistBody(e, name, useCache, fuel), s, NotSegment);
  }

  /** How many segment fetches a run of exchanges holds. */
  function SegmentFetches(xs: seq<Exchange>): nat
    decreases |xs|
  {
    if xs == [] then 0 else (if IsSegmentFetch(xs[0]) then 1 else 0) + SegmentFetches(xs[1..])
  }

  lemma {:induction false} SegmentFetchesAppend(a: seq<Exchange>, b: seq<Exchange>)
    ensures SegmentFetches(a + b) == SegmentFetches(a) + SegmentFetches(b)
    decreases |a|
  {
    if a == [] {
      assert a + b == b;
    } else {
      assert (a + b)[1..] == a[1..] + b;
      SegmentFetchesAppend(a[1..], b);
    }
  }

  lemma {:induction false} NoSegmentFetches(xs: seq<Exchange>)
    requires forall i :: 0 <= i < |xs| ==> NotSegment(xs[i])
    ensures SegmentFetches(xs) == 0
    decreases |xs|
  {
    if xs != [] {
      NoSegmentFetches(xs[1..]);
    }
  }

  /** The segment fetches from `s` to `t` are those up to `m` and those after it. */
  lemma DeltaFetches(s: State, m: State, t: State)
    requires s.log <= m.log <= t.log
    ensures SegmentFetches(Delta(s, t)) == SegmentFetches(Delta(s, m)) + SegmentFetches(Delta(m, t))
  {
    assert Delta(s, t) == Delta(s, m) + Delta(m, t);
    SegmentFetchesAppend(Delta(s, m), Delta(m, t));
  }

  /** The first exchange of an attempt of `get_segment` is its one fetch of the segment. */
  lemma SegmentFirstFetch(e: Env, path: string, s: State)
    ensures var x := Send(e, s, MediaRequest(e, s, SegmentSite, SegmentUrl(path)));
      s.log <= x.st.log && SegmentFetches(Delta(s, x.st)) == 1
  {
    var x := Send(e, s, MediaRequest(e, s, SegmentSite, SegmentUrl(path)));
    assert Delta(s, x.st) == [Exchanged(e, s, MediaRequest(e, s, SegmentSite, SegmentUrl(path)))];
  }

  /** The playlist renewal after a 403 fetches no segment. */
  lemma RenewalFetchesNone(e: Env, t: State, name: string, fuel: nat)
    ensures var p := GetPlaylist(e, t, name, false, fuel);
      t.log <= p.st.log && SegmentFetches(Delta(t, p.st)) == 0
  {
    var p := GetPlaylist(e, t, name, false, fuel);
    GetPlaylistStep(e, t, name, false, fuel);
    NoSegmentFetches(Delta(t, p.st));
  }

  /** One attempt of `get_segment` fetches the segment exactly once, whatever the 403 renewal does. */
  lemma SegmentAttemptFetches(e: Env, path: string, fuel: nat, s: State)
    ensures var r := SegmentAttempt(e, path, fuel, s);
      s.log <= r.st.log && SegmentFetches(Delta(s, r.st)) == 1
  {
    var x := Send(e, s, MediaRequest(e, s, SegmentSite, SegmentUrl(path)));
    SegmentFirstFetch(e, path, s);
    var parts := SplitMax(path, '/', 2);
    if x.reply.Response? && x.reply.statusCode == 403 && |parts| >= 2 {
      var p := GetPlaylist(e, x.st, parts[1], false, fuel);
      RenewalFetchesNone(e, x.st, parts[1], fuel);
      DeltaFetches(s, x.st, p.st);
    }
  }

  /** The provider answers every fetch of this segment, whatever the cookies, with 403. */
  ghost predicate ForbidsSegment(e: Env, path: string) {
    forall token, gupId, jar, i ::
      var reply := e.provider(MediaGet(SegmentSite, SegmentUrl(path), token, gupId), jar, i);
      reply.Response? && reply.statusCode == 403
  }

  /**
   * Under a persistent 403, an attempt of `get_segment` always raises: IndexError when
   * the path has no second `/`-separated component; otherwise the exception of the
   * renewing `get_playlist(ch, False)` when it raises, and SegmentRetrievalError when
   * it returns.
   */
  lemma ForbiddenAttemptRaises(e: Env, path: string, fuel: nat, s: State)
    requires ForbidsSegment(e, path)
    ensures SegmentAttempt(e, path, fuel, s).out.Raised?
    ensures var x := Send(e, s, MediaRequest(e, s, SegmentSite, SegmentUrl(path)));
      var parts := SplitMax(path, '/', 2);
      var a := SegmentAttempt(e, path, fuel, s);
      && (|parts| < 2 ==> a.out == Raised(IndexError))
      && (|parts| >= 2 ==>
            var p := GetPlaylist(e, x.st, parts[1], false, fuel);
            a.out == Raised(if p.out.Raised? then p.out.exc else SegmentRetrievalError))
  {
    var req := MediaRequest(e, s, SegmentSite, SegmentUrl(path));
    assert e.provider(req, s.jar, |s.log|).statusCode == 403;
  }

  /** Each attempt under a persistent 403 raises and adds one fetch of the segment. */
  lemma ForbiddenRound(e: Env, path: string, fuel: nat, s: State, t: State, j: nat)
    requires ForbidsSegment(e, path)
    requires s.log <= t.log && SegmentFetches(Delta(s, t)) == j
    ensures var a := SegmentAttempt(e, path, fuel, t);
      a.out.Raised? && s.log <= a.st.log && SegmentFetches(Delta(s, a.st)) == j + 1
  {
    ForbiddenAttemptRaises(e, path, fuel, t);
    SegmentAttemptFetches(e, path, fuel, t);
    DeltaFetches(s, t, SegmentAttempt(e, path, fuel, t).st);
  }

  /**
   * A persistent 403 on a segment makes `get_segment` fail with RetryError after
   * exactly five fetches of the segment. Each attempt raises: SegmentRetrievalError
   * after renewing the channel's playlist, the renewal's own exception when that
   * renewal raises, or IndexError when the path has no second `/`-separated component
   * to name the channel.
   */
  lemma GetSegmentForbidden(e: Env, s: State, path: string, fuel: nat)
    requires ForbidsSegment(e, path)
    ensures var r := GetSegment(e, s, path, fuel);
      && r.out == Raised(RetryError)
      && s.log <= r.st.log
      && SegmentFetches(Delta(s, r.st)) == SegmentAttempts
  {
    var inv := (t: State, k: nat) => s.log <= t.log && SegmentFetches(Delta(s, t)) == k;
    forall t, j: nat | inv(t, j)
      ensures SegmentBody(e, path, fuel)(t).out.Raised? && inv(SegmentBody(e, path, fuel)(t).st, j + 1)
    {
      ForbiddenRound(e, path, fuel, s, t, j);
    }
    assert Delta(s, s) == [];
    RetryAllRaised(SegmentAttempts, SegmentBody(e, path, fuel), s, 0, inv);
  }

  /**
   * A first reply other than 403 ends `get_segment` after one exchange: 200 gives the
   * content and any other status gives None, with no retry.
   */
  lemma GetSegmentAnswered(e: Env, s: State, path: string, fuel: nat)
    ensures var x := Exchanged(e, s, MediaRequest(e, s, SegmentSite, SegmentUrl(path)));
      var r := GetSegment(e, s, path, fuel);
      x.reply.Response? && x.reply.statusCode != 403 ==>
        && r.out == Returned(if x.reply.statusCode == 200 then Some(x.reply.content) else None)
        && r.st.log == s.log + [x]
  {
  }

  /**
   * A 403 on a segment `a/ch/rest` renews the playlist of channel `ch`: the attempt is
   * that fetch, then `get_playlist(ch, False)`, then a raise.
   */
  lemma SegmentRenewsChannel(e: Env, s: State, a: string, ch: string, rest: string, fuel: nat)
    requires '/' !in a && '/' !in ch
    ensures var path := a + "/" + ch + "/" + rest;
      var x := Send(e, s, MediaRequest(e, s, SegmentSite, SegmentUrl(path)));
      var r := SegmentAttempt(e, path, fuel, s);
      x.reply.Response? && x.reply.statusCode == 403 ==>
        r.out.Raised? && r.st == GetPlaylist(e, x.st, ch, false, fuel).st
  {
    SplitTwoAt(a, '/', ch, rest);
  }

  // ----- do_GET -----

  /** A key request is answered with the AES key, whatever else the path holds, and sends nothing. */
  lemma HandleKey(e: Env, s: State, path: string)
    requires EndsWith(path, "/key/1")
    ensures Handle(e, s, path) == Ret(Returned(KeyAnswer()), s)
  {
  }

  /**
   * A request for `dir/name.m3u8` asks `get_playlist` for `name`, with the cache, and
   * serves the playlist as a manifest; an empty or missing playlist is answered with 500.
   */
  lemma HandlePlaylist(e: Env, s: State, dir: string, name: string)
    requires '/' !in name
    ensures var path := dir + "/" + name + Hls.PlaylistSuffix;
      var p := GetPlaylist(e, s, name, true, e.depth);
      var r := Handle(e, s, path);
      && r.st == p.st
      && (p.out.Raised? ==> r.out == Raised(p.out.exc))
      && (p.out.Returned? ==> r.out == Returned(
            if p.out.value.Some? && p.out.value.value != ""
            then Answer(200, Some(ManifestType), Text(p.out.value.value))
            else Status(500)))
  {
    var file := name + Hls.PlaylistSuffix;
    var path := dir + "/" + name + Hls.PlaylistSuffix;
    assert path == dir + ['/'] + file;
    assert '/' !in file;
    RSplitOnceAt(dir, '/', file);
    assert DropLast(file, 5) == name;
    assert EndsWith(path, Hls.PlaylistSuffix);
  }

  /**
   * A request for a segment passes the path without its leading `/` to `get_segment`
   * and serves the content as audio; empty or missing content is answered with 500.
   */
  lemma HandleSegment(e: Env, s: State, path: string)
    requires EndsWith(path, Hls.SegmentSuffix)
    ensures var g := GetSegment(e, s, path[1..], e.depth);
      var r := Handle(e, s, path);
      && r.st == g.st
      && (g.out.Raised? ==> r.out == Raised(g.out.exc))
      && (g.out.Returned? ==> r.out == Returned(
            if g.out.value.Some? && g.out.value.value != []
            then Answer(200, Some(AudioType), Bytes(g.out.value.value))
            else Status(500)))
  {
  }

  /** Any other path is answered with 500 and sends nothing. */
  lemma HandleOther(e: Env, s: State, path: string)
    requires !EndsWith(path, Hls.PlaylistSuffix) && !EndsWith(path, Hls.SegmentSuffix) && !EndsWith(path, "/key/1")
    ensures Handle(e, s, path) == Ret(Returned(Status(500)), s)
  {
  }
}
