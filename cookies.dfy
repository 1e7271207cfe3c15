/** The session's cookie jar and what sxm.py reads out of it. */
module Cookies {
  import opened Wrappers
  import opened Text

  /** Cookie name to value, as held by the `requests.Session`. */
  type Jar = map<string, string>

  const LoginCookie := "SXMAUTHNEW"
  const BalancerCookie := "AWSELB"
  const SessionCookie := "JSESSIONID"
  const TokenCookie := "SXMAKTOKEN"
  const DataCookie := "SXMDATA"

  /** `is_logged_in`: the login exchange left its marker cookie. */
  predicate IsLoggedIn(jar: Jar) {
    LoginCookie in jar
  }

  /** `is_session_authenticated`: the resume exchange left both session cookies. */
  predicate IsSessionAuthenticated(jar: Jar) {
    BalancerCookie in jar && SessionCookie in jar
  }

  /** Cookies a response sets are added to the jar, replacing older values of the same name. */
  function Merge(jar: Jar, received: Jar): (r: Jar)
    ensures r.Keys == jar.Keys + received.Keys
    ensures IsLoggedIn(jar) ==> IsLoggedIn(r)
    ensures IsSessionAuthenticated(jar) ==> IsSessionAuthenticated(r)
  {
    jar + received
  }

  /**
   * `get_sxmak_token`: the value of the SXMAKTOKEN cookie after its first `=`,
   * cut at the first `,` after that; None when the cookie is missing (KeyError)
   * or has no `=` (IndexError).
   */
  function SxmakToken(jar: Jar): (r: Option<string>)
    ensures r.Some? <==> TokenCookie in jar && '=' in jar[TokenCookie]
    ensures r.Some? ==>
      var v := jar[TokenCookie];
      var i := Find(v, '=').value;
      && ',' !in r.value
      && StartsWith(v[i + 1..], r.value)
      && (i + 1 + |r.value| == |v| || v[i + 1 + |r.value|] == ',')
  {
    if TokenCookie !in jar then None
    else
      var v := jar[TokenCookie];
      var halves := SplitMax(v, '=', 1);
      if |halves| < 2 then None
      else
        var i := |halves[0]|;
        assert v == halves[0] + "=" + halves[1];
        assert Find(v, '=') == Some(i) by {
          assert v[i] == '=' && v[..i] == halves[0];
        }
        assert v[i + 1..] == halves[1];
        var pieces := SplitMax(halves[1], ',', 1);
        assert |pieces| == 2 ==> halves[1] == pieces[0] + "," + pieces[1];
        Some(pieces[0])
  }

  /** `get_gup_id`: SXMDATA decoded by `decode` (URL-unquoting and JSON, treated as opaque). */
  function GupId(jar: Jar, decode: string -> Option<string>): Option<string> {
    if DataCookie in jar then decode(jar[DataCookie]) else None
  }
}
