# SiriusXM proxy: the provider session, modelled and proved in Dafny

SiriusXM is a small HTTP proxy. A media player asks it for HLS playlists and AAC
segments, and the proxy fetches them from the SiriusXM streaming service. To do
that it keeps a logged-in, authenticated session with the provider. There are two
versions of the proxy:

- `sxm.py` is the current one. Its `SiriusXM` object holds:
  - a `requests` session, whose cookies record login (`SXMAUTHNEW`) and an
    authenticated session (`AWSELB` plus `JSESSIONID`);
  - a per-channel cache of variant playlist URLs;
  - a cached channel list.

  On top of that state it implements `get`/`post` against the REST API, `login`,
  `authenticate` (under a retry decorator), the token and GUP-id cookie readers,
  `get_playlist_url`, `get_playlist_variant_url`, `get_playlist` (with a rewrite of
  the segment lines of the playlist), `get_segment`, `get_channels`, `get_channel`,
  and the `do_GET` router of its request handler.
- `server.py` is the older version. Its `login`, `get_auth_token`, `get_playlist` and
  `get_segment` work over fixed URL templates and a recursive status dispatch. Its
  handler retries a segment fetch three times and routes `/key/`, `.m3u8` and `.aac`.

The network is modelled as a total oracle, `provider(request, cookies sent,
exchange index) -> reply`. A reply is either `Unreachable` (a ConnectionError) or a
response with a status, the cookies it sets, its body decoded as JSON (None when
that fails), its text and its bytes. With the replies as inputs, every decision the
proxy makes is a deterministic function of its state. The state includes a log of
every exchange, so counts of requests are provable.

Modules:

- `Wrappers`: `Option`, and `Outcome` (a Python return or an exception).
- `Cookies`: the cookie names, the session predicates, the jar update and
  `get_sxmak_token`.
- `Provider`: the typed replies and the parts of the JSON bodies the code reads.
- `Http`: the answers the proxies send back, including the HLS AES key.
- `Text`: the Python `str` operations used: `strip`, `split`, `split(c, n)`,
  `rsplit(c, 1)`, `join`, `find`, `replace`, `lower` and slicing.
- `Hls`: variant selection and the media-playlist rewrite, including an exact model
  of the `re.sub` pattern `[^/]\w+\.m3u8`.
- `SxmModel` and `ServerModel`: the operations of `sxm.py` and `server.py` as
  state-passing functions.
  - A call returns `Ret(outcome, state after)`.
  - A tenacity decorator `stop_after_attempt(N)` is the generic `Retry(N, body, s)`. It
    retries on any exception, returns the first normal return, and raises RetryError
    after N raises.
  - Python's recursion limit is a `fuel` parameter; running out raises RecursionError.
- `Sxm` and `Server`: the `SiriusXM` and handler objects as classes.
  - The fields the source mutates are class fields: the cookie jar, the `playlists`,
    the `channels` and the exchange log.
  - Every method is proved to produce exactly the outcome and new state of its model
    function.
  - The decorators' retry loops, the attempt loop of `get_playlist_url`, the loops of
    `get_playlist_url` and `get_channel`, the `playlist_entries` loop and the
    three-attempt loop of `handle_segment` are `while`/`for` loops with invariants.
- `SxmFacts` and `ServerFacts`: the properties of the two proxies, proved about the
  model functions. Because each class method equals its model function, they hold of
  the objects too.

## Model

| member | source | states |
|---|---|---|
| Cookies.Merge | sxm.py:69-73 | a response's cookies are added to the session; a logged-in or authenticated session stays so |
| Cookies.SxmakToken | sxm.py:219-224 | the token exists exactly when SXMAKTOKEN is present and holds `=`; it is what follows the first `=`, up to the first `,` after it (or the end) and holds no `,` |
| Text.RStrip | sxm.py:368 | the result is the longest prefix of the text with no trailing whitespace, and only whitespace was removed |
| Text.LStrip | sxm.py:410 | the result is the longest suffix with no leading whitespace, and only whitespace was removed |
| Text.Strip | sxm.py:410 | the stripped line neither starts nor ends with whitespace |
| Text.StripSlice | sxm.py:410 | the stripped line is a slice of the line, and everything outside that slice is whitespace |
| Text.StripChars | sxm.py:410 | stripping brings in no new character |
| Text.Lower | sxm.py:484 | lower-casing keeps the length |
| Text.Find | sxm.py:222 | the first index of the character, None exactly when it is absent |
| Text.RFind | sxm.py:372 | the last index of the character, None exactly when it is absent |
| Text.FindSub | server.py:213 | the first index at which the substring occurs; None only when it occurs nowhere |
| Text.Split | sxm.py:368 | `split` gives at least one part and no part holds the separator |
| Text.JoinSplit | sxm.py:409 | joining the parts of a split gives the text back |
| Text.SplitJoin | sxm.py:418 | splitting a join of separator-free parts gives the parts back |
| Text.SplitLastAt | server.py:163 | the last part of a split is what follows the last separator |
| Text.SplitMax | sxm.py:222 | `split(c, n)` makes at most n cuts from the left; the leading parts hold no separator; joining gives the text back |
| Text.SplitTwoAt | sxm.py:431 | `path.split('/', 2)` of `a/b/rest` is `[a, b, rest]` |
| Text.RSplitOnce | sxm.py:372 | `rsplit(c, 1)` gives the whole text without a separator; with one, the parts around the last separator |
| Text.RSplitOnceAt | sxm.py:509 | `rsplit('/', 1)` of `a/b`, where b holds no `/`, is `[a, b]` |
| Text.ReplaceAbsent | sxm.py:341-343 | `replace` leaves a text in which the target does not occur unchanged |
| Text.ReplaceFirst | sxm.py:341-343 | `replace` keeps the text before the first occurrence of the target, puts the replacement in its place and goes on after it |
| Text.ReplaceSkip | sxm.py:341-343 | a prefix in which no occurrence of the target starts is kept unchanged |
| Hls.FirstVariant | sxm.py:365-371 | the index of the first right-stripped line ending in `.m3u8`; None exactly when there is none |
| Hls.VariantOf | sxm.py:365-372 | the variant URL is the directory of the playlist URL, `/`, and the first variant line right-stripped; None exactly when no line is a variant line |
| Hls.WordRun | sxm.py:413 | the greedy run of `\w` characters at the start of the text |
| Hls.MatchAt | sxm.py:413 | a match of `[^/]\w+\.m3u8` starts with a non-`/` character, is at least 7 long and ends in `.m3u8` |
| Hls.SubPlaylistNameChars | sxm.py:413 | the substitution brings in only characters of the text or of the replacement |
| Hls.FirstLine | sxm.py:413 | `.*` stops at the first line break |
| Hls.AacTailShape | sxm.py:413 | `re.findall("AAC_Data.*", url)[0]` exists exactly when the URL mentions AAC_Data; it starts there and holds no line break |
| Hls.RewriteFailsExactly | sxm.py:408-416 | the rewrite raises IndexError exactly when some line is a segment line and the URL has no AAC_Data tail |
| Hls.Entries | sxm.py:408-416 | there is one entry per line of the playlist |
| Hls.EntriesAt | sxm.py:408-416 | entry k is line k rewritten |
| Hls.RewriteEntries | sxm.py:408-416 | the loop that builds `playlist_entries` fails exactly when the rewrite raises, and otherwise yields the rewritten lines |
| Hls.RewritePlaylist | sxm.py:408-418 | the served manifest is the entries joined with line breaks, or the IndexError |
| Hls.RewrittenLines | sxm.py:408-418 | the served manifest has as many lines as the fetched text, and line k is line k rewritten |
| Hls.OtherLineKept | sxm.py:415-416 | a line that is not a segment line is served stripped and otherwise unchanged |
| Hls.NoMatchBeforeSlash | sxm.py:413 | no match of the pattern starts inside a directory part without a `.` |
| Hls.SubAfterDirectory | sxm.py:413 | the substitution leaves a leading directory part without `.` alone |
| Hls.FileNameReplaced | sxm.py:413 | the whole `name.m3u8` file name is one match, so it becomes the replacement |
| Hls.SegmentLineRewritten | sxm.py:411-414 | a segment line becomes the AAC_Data tail with its final `<word>.m3u8` file name replaced by the stripped line |
| SxmModel.FirstLarge | sxm.py:339-340 | the index of the first LARGE entry; None exactly when there is none |
| SxmModel.Lookup | sxm.py:485-499 | the first entry, in list order, that matches the key and whose GUID and id can be read; None exactly when there is none |
| SxmModel.RouteOf | sxm.py:507-547 | a path is routed to the playlist, segment or key handler exactly when it ends in `.m3u8`, `.aac` or `/key/1` |
| Sxm.FindLarge | sxm.py:339-347 | the loop over `hlsAudioInfos` returns the first LARGE index |
| Sxm.FindChannel | sxm.py:485-499 | the loop of `get_channel`, with its early return, finds what `Lookup` specifies |
| Sxm.RetryStep | sxm.py:75 | one round of a decorator's loop: a normal return ends it, an exception goes on with one attempt fewer |
| Sxm.SiriusXM.constructor | sxm.py:53-59 | a new object has no cookies, empty caches and no exchanges |
| Sxm.SiriusXM.Send | sxm.py:82 | one exchange: the reply is logged and its cookies are added to the session |
| Sxm.SiriusXM.ResetSession | sxm.py:168-170 | `reset_session` empties the cookie jar and changes nothing else |
| Sxm.SiriusXM.Rest | sxm.py:81-103 | a REST exchange: ConnectionError escapes; a status other than 200 or a body that is not JSON gives None |
| Sxm.SiriusXM.Login | sxm.py:131-166 | `login` equals its model: a None from `post` escapes as TypeError; True needs status 1 and the login cookie |
| Sxm.SiriusXM.Resume | sxm.py:206-217 | the resume post: True needs status 1 and both session cookies |
| Sxm.SiriusXM.AuthenticateAttempt | sxm.py:173-217 | login is skipped when logged in; a failed login resets the session and raises |
| Sxm.SiriusXM.Authenticate | sxm.py:172-217 | the retry loop equals ten attempts of `authenticate` under the decorator |
| Sxm.SiriusXM.GetAttempt | sxm.py:76-103 | `get` authenticates first when the session is already authenticated, and then makes its GET |
| Sxm.SiriusXM.Get | sxm.py:75-103 | the retry loop equals ten attempts of `get` |
| Sxm.SiriusXM.NowPlaying | sxm.py:283-295 | `get_now_playing` is a `get` of the now-playing endpoint for the GUID and channel id |
| Sxm.SiriusXM.VariantUrl | sxm.py:349-372 | `get_playlist_variant_url` equals its model |
| Sxm.SiriusXM.GetPlaylistUrl | sxm.py:297-347 | the recursion on 201/208 run as a loop over the remaining attempts equals the recursive model, cache writes included |
| Sxm.SiriusXM.FetchChannels | sxm.py:462-481 | the channel-list fetch: a failed fetch is FetchFailed, and a missing list gives [] without caching |
| Sxm.SiriusXM.GetChannels | sxm.py:442-481 | the cached list is returned as it is; otherwise it authenticates when not authenticated (exceptions swallowed) and fetches |
| Sxm.SiriusXM.GetChannel | sxm.py:483-499 | `get_channel` is `Lookup` of the lower-cased name in the channel list |
| Sxm.SiriusXM.GetPlaylist | sxm.py:374-418 | the retry loop equals 25 attempts of `get_playlist` |
| Sxm.SiriusXM.PlaylistAttempt | sxm.py:375-391 | one attempt: an unknown channel or an empty GUID or id gives None; a None URL raises MissingSchema |
| Sxm.SiriusXM.FetchPlaylist | sxm.py:385-418 | 403 recurses with the cache off; other non-200 statuses give None; a ConnectionError leads to AttributeError; 200 is rewritten |
| Sxm.SiriusXM.SegmentAttempt | sxm.py:421-440 | one attempt of `get_segment` equals its model |
| Sxm.SiriusXM.GetSegment | sxm.py:420-440 | the retry loop equals five attempts of `get_segment` |
| Sxm.SiriusHandler.constructor | sxm.py:503-505 | the handler shares one `SiriusXM` object |
| Sxm.SiriusHandler.DoGet | sxm.py:507-547 | `do_GET` equals its model |
| SxmFacts.RetryAll | sxm.py:75 | a retry makes only requests its attempts may make |
| SxmFacts.RetryCaches | sxm.py:75 | a retry leaves the caches alone when its attempts do |
| SxmFacts.RetryAllRaised | sxm.py:172 | when every attempt raises, the decorator makes exactly N attempts and raises RetryError |
| SxmFacts.RetryExtendsFirst | sxm.py:75 | a retry's exchanges start with those of its first attempt |
| SxmFacts.RestStep | sxm.py:81-103 | one REST call is exactly one logged exchange, takes the reply's cookies and leaves the caches alone |
| SxmFacts.LoginStep | sxm.py:160-166 | True from `login` means the session is logged in |
| SxmFacts.ResumeStep | sxm.py:206-217 | True from resume means the session is authenticated, and a logged-in session stays so |
| SxmFacts.AttemptStep | sxm.py:173-217 | an attempt of `authenticate` makes at least one request, only POSTs, and leaves the caches alone |
| SxmFacts.AuthenticateStep | sxm.py:172-217 | `authenticate` makes at least one request, only POSTs, and leaves the caches alone |
| SxmFacts.GetAttemptStep | sxm.py:76-103 | an attempt of `get` makes only REST requests and leaves the caches alone |
| SxmFacts.GetStep | sxm.py:75-103 | `get` makes only REST requests and leaves the caches alone |
| SxmFacts.VariantStep | sxm.py:349-355 | the variant fetch is exactly one media GET |
| SxmFacts.AuthenticateWhenLoggedIn | sxm.py:174 | once logged in, `authenticate` never logs in again: between 1 and 10 requests, all resume posts, and the login cookie stays |
| SxmFacts.ResumeSucceeded | sxm.py:210-214 | a successful resume leaves both session cookies and a 200 status-1 resume reply last |
| SxmFacts.AttemptSucceeded | sxm.py:173-217 | a successful attempt ends logged in and authenticated, right after a status-1 resume |
| SxmFacts.AuthenticateSucceeded | sxm.py:172-217 | True from `authenticate` means logged in and authenticated, right after a resume answered with status 1 |
| SxmFacts.AttemptRejected | sxm.py:174-177 | a rejected login resets the session (empty jar) and raises AuthenticationError after one post |
| SxmFacts.RejectedStep | sxm.py:174-177 | a rejected attempt keeps the run logged out with an empty jar and adds one login post |
| SxmFacts.AuthenticateRejected | sxm.py:172-177 | when every login is rejected: exactly ten login posts, an empty jar and RetryError |
| SxmFacts.AuthenticateStartsWithPost | sxm.py:174-206 | the first request of `authenticate` is a POST |
| SxmFacts.GetStartsWith | sxm.py:77 | the first request of `get` is its GET exactly when the session is NOT authenticated; otherwise it authenticates first |
| SxmFacts.AnsweredGetsAppend | sxm.py:75-103 | the answered GETs of two runs of exchanges add up |
| SxmFacts.NoAnsweredGets | sxm.py:105-129 | POSTs are no answered GETs |
| SxmFacts.AnswersCompose | sxm.py:75-103 | bounds on answered GETs add up over consecutive runs |
| SxmFacts.RestAnswers | sxm.py:81-103 | one REST exchange is at most one answered GET |
| SxmFacts.GetAttemptAnswers | sxm.py:76-103 | an attempt of `get` that raises got no answered GET; one that returns got at most one |
| SxmFacts.RetryAnswersOnce | sxm.py:75 | a retry whose attempts get answers only when they return gets at most one |
| SxmFacts.GetAnswersOnce | sxm.py:75-103 | one `get` call gets at most one answer to its GET, whatever its ten attempts do |
| SxmFacts.PlaylistUrlStep | sxm.py:297-347 | `get_playlist_url`, however deep its recursion, sends no segment request, leaves the channel list alone and changes the cache at most by storing its own result for the channel |
| SxmFacts.PlaylistUrlNone | sxm.py:304-347 | without a message code, with 201/208 and no attempts left, with a code other than 100, 201 and 208, or with code 100 and no LARGE stream, `get_playlist_url` returns None and leaves both caches unchanged |
| SxmFacts.PlaylistUrlRenews | sxm.py:313-326 | with 201/208 and attempts left, `authenticate` runs: True asks again with one attempt fewer, False gives None, an exception escapes |
| SxmFacts.PlaylistUrlResolves | sxm.py:338-345 | with code 100, the first LARGE stream's URL, placeholder replaced, is resolved; its result, None included, is returned and stored for the channel, the channel list is kept, and a later cached call returns it with no request |
| SxmFacts.VerdictLarge | sxm.py:331-347 | with code 100, the first LARGE entry's URL with `%Live_Primary_HLS%` replaced is resolved; no LARGE entry gives None |
| SxmFacts.FirstLargeUnique | sxm.py:339-340 | the first LARGE entry is the one with none before it |
| SxmFacts.PlaylistUrlCached | sxm.py:298-345 | with the cache on, a stored entry, None included, is returned as it is with no request; after a call, an entry for the channel equals what the call returned, so a later call returns the same |
| SxmFacts.VariantAnswersNone | sxm.py:349-355 | the variant fetch is no answered REST GET |
| SxmFacts.PlaylistUrlAnswers | sxm.py:297-347 | `get_playlist_url` gets at most `max_attempts + 1` answers to its now-playing requests |
| SxmFacts.GetChannelsStep | sxm.py:442-481 | `get_channels` makes only REST requests, keeps the playlist cache, returns the list it caches, and keeps the cache when the fetch fails |
| SxmFacts.FetchChannelsStep | sxm.py:462-481 | the uncached fetch of the channel list keeps to the same |
| SxmFacts.GetChannelCached | sxm.py:442-499 | with a cached list, `get_channel` is a lookup in it that makes no request |
| SxmFacts.GetChannelStep | sxm.py:483-499 | `get_channel` makes only REST requests and keeps the playlist cache |
| SxmFacts.FetchPlaylistStep | sxm.py:385-418 | the playlist fetch requests no segment, however deep its 403 recursion goes |
| SxmFacts.PlaylistAttemptStep | sxm.py:375-418 | one attempt of `get_playlist` requests no segment |
| SxmFacts.GetPlaylistStep | sxm.py:374-418 | `get_playlist` requests no segment |
| SxmFacts.SegmentFetchesAppend | sxm.py:428 | the segment fetches of two runs of exchanges add up |
| SxmFacts.DeltaFetches | sxm.py:428 | the segment fetches between two states split at any state in between |
| SxmFacts.SegmentFirstFetch | sxm.py:422-428 | the first exchange of an attempt of `get_segment` is its one segment fetch |
| SxmFacts.RenewalFetchesNone | sxm.py:431 | the playlist renewal after a 403 fetches no segment |
| SxmFacts.SegmentAttemptFetches | sxm.py:421-440 | one attempt of `get_segment` fetches the segment exactly once |
| SxmFacts.ForbiddenAttemptRaises | sxm.py:430-434 | under a persistent 403, an attempt always raises: IndexError when the path names no channel; otherwise the exception of the renewing `get_playlist(ch, False)` when it raises, else SegmentRetrievalError |
| SxmFacts.ForbiddenRound | sxm.py:430-434 | each attempt under a persistent 403 raises and adds exactly one segment fetch |
| SxmFacts.GetSegmentForbidden | sxm.py:420-434 | a persistent 403 makes `get_segment` fail with RetryError after exactly five segment fetches, for any path |
| SxmFacts.GetSegmentAnswered | sxm.py:428-440 | a first reply other than 403 ends `get_segment` after that one exchange: 200 gives the content, other statuses give None |
| SxmFacts.SegmentRenewsChannel | sxm.py:430-434 | a 403 on `a/ch/rest` runs `get_playlist(ch, False)` and then raises |
| SxmFacts.HandleKey | sxm.py:536-544 | a path ending in `/key/1` gets the AES key and sends nothing upstream |
| SxmFacts.HandlePlaylist | sxm.py:508-521 | `dir/name.m3u8` asks `get_playlist` for `name` with the cache; an exception escapes; a non-empty playlist is answered with 200, the manifest content type and its text, anything else with a bare 500 |
| SxmFacts.HandleSegment | sxm.py:522-535 | a segment path loses its leading `/`; an exception escapes; non-empty content is answered with 200, the audio content type and its bytes, anything else with a bare 500 |
| SxmFacts.HandleOther | sxm.py:545-547 | any other path gets 500 and sends nothing upstream |
| Server.SiriusXM.constructor | server.py:41-46 | a new object has an empty session; `__init__` does not log in |
| Server.SiriusXM.Send | server.py:92 | one exchange: its cookies are added to the session and it is logged |
| Server.SiriusXM.Login | server.py:48-82 | `login` equals its model |
| Server.SiriusXM.GetAuthToken | server.py:84-111 | `get_auth_token` equals its fuel-bounded model |
| Server.SiriusXM.Relogin | server.py:98-109 | the expired-session branch equals its model; the bare `except` turns failures into False |
| Server.SiriusXM.Dispatch | server.py:119-132 | the shared status dispatch equals its model |
| Server.SiriusXM.Renew | server.py:122-127 | the 403 branch retries only on a truthy token |
| Server.SiriusXM.GetPlaylist | server.py:113-132 | `get_playlist` equals its model |
| Server.SiriusXM.GetSegment | server.py:134-150 | `get_segment` equals its model |
| Server.SiriusHandler.constructor | server.py:152-154 | the handler shares one `SiriusXM` object |
| Server.SiriusHandler.HandlePlaylist | server.py:162-178 | `handle_playlist` equals its model |
| Server.SiriusHandler.HandleSegment | server.py:180-208 | the three-attempt loop with `break` equals its model, leaving `res` None when every call raises |
| Server.SiriusHandler.DoGet | server.py:210-230 | `do_GET` equals its model |
| ServerFacts.LoginStep | server.py:73-82 | `login` makes one POST; it raises exactly when unreachable; True exactly for 200 with JSON status 1 |
| ServerFacts.AuthTokenGrows | server.py:84-111 | `get_auth_token` never shortens the log |
| ServerFacts.AuthTokenRaises | server.py:84-111 | `get_auth_token` raises only a ConnectionError of its own now-playing GET; later failures are caught |
| ServerFacts.AuthTokenTrue | server.py:84-111 | True means the channel is known and the last exchange was a 200 now-playing reply that set SXMAKTOKEN, now in the session |
| ServerFacts.AuthTokenDispatch | server.py:84-111 | an unknown channel gives False with no request; non-200 gives False; a status other than 0 gives whether SXMAKTOKEN was set |
| ServerFacts.TokenExpired | server.py:100-104 | status 0 logs in and asks again |
| ServerFacts.ReloginFails | server.py:105-109 | a failed login, or the recursion limit, gives False |
| ServerFacts.ReloginRetried | server.py:102-104 | after a successful login, the answer is whether the retry returned True |
| ServerFacts.ForbiddenRenews | server.py:122-127 | a 403 reply renews the token |
| ServerFacts.UnavailableRetries | server.py:128-130 | a 503 reply retries |
| ServerFacts.RenewRetries | server.py:124-125 | a renewed token retries |
| ServerFacts.FetchStep | server.py:119-132 | the dispatch never returns False; a response it returns is a 200 reply to its last exchange, a GET of the URL |
| ServerFacts.GetPlaylistGot | server.py:113-132 | a response from `get_playlist` is a 200 reply to a GET of the channel id's playlist URL |
| ServerFacts.GetPlaylistUnknown | server.py:114-116 | `get_playlist` returns False exactly when the channel number maps to no id |
| ServerFacts.GetPlaylistOtherStatus | server.py:131-132 | a first reply other than 200, 403 and 503 gives None after that one exchange |
| ServerFacts.GetSegmentGot | server.py:134-150 | a response from `get_segment` is a 200 reply to a GET of the segment URL; it never returns False |
| ServerFacts.SegmentChannelIs | server.py:135 | the channel of a segment is its name up to the first `_`, or the whole name |
| ServerFacts.SegmentUrlOf | server.py:135-136 | `ch_rest` is fetched from `HLS_BASE_URL/ch/HLS_ch_256k_v3/ch_rest` |
| ServerFacts.PlaylistChannelOf | server.py:163 | the channel of `dir/number.m3u8` is `number` |
| ServerFacts.HandlePlaylistAnswers | server.py:162-178 | `handle_playlist` answers exactly when `get_playlist` returned a response, with 200, the manifest content type and that response's text; an unknown channel raises AttributeError; the 404 branch, whose `%d` log message raises TypeError, is never taken because `get_playlist` returns only 200 responses |
| ServerFacts.SegmentTriesGot | server.py:184-191 | what the loop leaves in `res` is None or a 200 reply to a GET of the segment |
| ServerFacts.HandleSegmentAnswers | server.py:180-208 | `handle_segment` never raises; it answers exactly when the loop kept a response, with 200 and its bytes; the 404 branch is never taken |
| ServerFacts.UnreachableTries | server.py:184-191 | with no provider, each of the attempts raises after one exchange and `res` stays None |
| ServerFacts.UnreachableSegmentServed | server.py:180-228 | a segment the provider never answers gets 500 after exactly three attempts |
| ServerFacts.DoGetRoutes | server.py:210-228 | `/key/` anywhere wins and sends nothing upstream; 404 exactly for paths no test accepts; every answer is 200, 404 or 500 |
| ServerFacts.DoGetHandled | server.py:216-231 | a playlist or segment request gets its handler's answer: False gives 500, an exception gives no answer, any other answer is sent as is |

## Left out

- The HTTP transport, streaming reads and the listening socket are not modelled.
  Replies are oracle inputs. Writes to the player are the returned `Answer`.
- Sleeps, tenacity waits and log `print`s are left out. Only attempt counts are kept.
- The login and resume request bodies and the GET parameters are not modelled. This
  includes the clock-derived `time`/`timestamp` parameters of the now-playing
  requests in both files. A request is identified by its endpoint, or by its URL and
  the token and GUP id sent with it.
- `get_gup_id`: URL-unquoting and JSON decoding of SXMDATA are an opaque decoder
  in `Env`.
- The JSON body is typed (`Doc`). Keys that are null, of the wrong type or not
  objects are not distinguished from missing keys. `not data` is taken as "data is
  None", so an empty JSON object behaves like an object missing its keys.
- `HlsAudioInfo` entries always have `size` and `url`. A KeyError from an entry
  without them is not modelled.
- `Text.Lower` and `\w` cover ASCII only. Python's Unicode case mapping and word
  characters are not modelled.
- `re.sub` is modelled for the one pattern `[^/]\w+\.m3u8` only. The replacement is
  inserted literally, so backslash escapes in a segment line are not interpreted.
  `re.findall("AAC_Data.*", url)[0]` is modelled only as its first match.
- `post(..., authenticate=True)` is not modelled: no modelled caller uses it.
- `retry_login` and `retry_authenticate` (sxm.py:32-46) are not modelled. No decorator
  is given them, so no retry depends on them; apart from a print they only test
  `value is False`.
- PlaylistUrlStep: states only the frame of `get_playlist_url` (no segment request, channel list kept, at most its own result stored). Which paths store and which do not is stated by PlaylistUrlNone, PlaylistUrlRenews and PlaylistUrlResolves, one recursion level at a time.
- `authenticate` always posts resume when logged in. It does not skip an already
  active session.
- The ConnectionError caught in sxm.py `get_playlist` is followed by `res.text` on
  a None response. The model gives AttributeError there.
- `get_segment` of sxm.py: the decorator's five attempts are kept. Streaming
  `res.content` is one byte sequence.
- `handle_segment` of server.py: an `IncompleteRead` from `res.raw.read()` is not
  modelled. The body read is the response's bytes, and only a raising `get_segment`
  is retried.
- The `channels` module of server.py is not part of this model. `get_channel_id` and
  `get_channel_number` are opaque partial maps in `Env`; `get_channel_id` is also
  given None.
- Server.SiriusXM.Dispatch: `get_playlist` and `get_segment` recurse into themselves
  and recompute the same URL and channel number. The model recurses into the shared
  dispatch with that URL and number, which gives the same exchanges and results.
- `res.cookies` in server.py's `get_auth_token` is the reply's `setCookies`.
- Python's recursion limit is `fuel` (`Env.depth`). The exact depth at which CPython
  raises is not modelled.
- `do_GET` of sxm.py: a failure while writing to the player (a broken pipe) is not
  modelled. It happens after the upstream exchanges, which are modelled.
- Episodes, the ripper, argument parsing, `start_httpd` and `main` are not part of
  the proxy core.
