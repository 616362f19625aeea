/**
 * The decisions of the `/login`, `/callback` and `/refresh` handlers, as
 * functions from the configuration, the request, the browser's cookie jar
 * and (for the two token-endpoint routes) the endpoint's answer, to a Step:
 * the jar the browser holds afterwards, the response it receives and the
 * token requests the server posted. The flow is the authorization-code grant
 * of RFC 6749 (section 4.1.1 for the authorization request, section 4.1.3 for
 * the token request, section 6 for refreshing, section 10.12 for `state`).
 */
module Routes {
  import opened Wrappers
  import opened Text
  import opened QueryString
  import opened Resolve

  /** The browser's cookies for this site, by name. */
  type Jar = map<string, string>

  const StateCookie := "spotify-auth-state"
  const ReturnCookie := "spotify-auth-return-uri"
  const AuthorizeUrl := "https://accounts.spotify.com/authorize"
  const TokenUrl := "https://accounts.spotify.com/api/token"
  const InvalidReturnUri := "Invalid return URI"
  const StateMismatch := "state_mismatch"

  /** A POST to the token endpoint: its URL, its form fields (sent as
      `querystring.stringify(form)`) and the client credentials that its
      Basic `Authorization` header carries base64-encoded. */
  datatype TokenRequest = TokenRequest(url: string, form: seq<Field>, credentials: string)

  /** How the token endpoint answered a POST: with data, with an HTTP error
      status, or with no HTTP response at all (the connection failed). */
  datatype Exchange =
    | Granted(data: seq<Field>)
    | Refused(status: nat, statusText: string)
    | NoReply

  datatype Body = Plain(text: string) | Json(fields: seq<Field>) | Opaque

  /** The response as the browser sees it; `Unsent` when the handler never
      finishes it. A redirect is Express's default 302. */
  datatype Response =
    | Unsent
    | Redirect(location: Target)
    | Send(status: nat, body: Body)

  datatype Step = Step(jar: Jar, response: Response, posted: seq<TokenRequest>)

  /** An environment value in string concatenation: an unset one reads as
      the text `undefined`. */
  function Concatenated(v: Option<string>): (t: string)
    ensures v.Some? ==> t == v.value
    ensures v.None? ==> t == "undefined"
  {
    if v.Some? then v.value else "undefined"
  }

  /** `client_id + ':' + client_secret`, the Basic-auth credentials; unset
      credentials concatenate as `undefined`. */
  function Credentials(cfg: Config): (c: string)
    ensures var id, secret := Concatenated(cfg.clientId), Concatenated(cfg.clientSecret);
            && |c| == |id| + 1 + |secret|
            && c[..|id|] == id && c[|id|] == ':'
            && c[|id| + 1..] == secret
    ensures cfg.clientId.None? && cfg.clientSecret.None? ==> c == "undefined:undefined"
  {
    Concatenated(cfg.clientId) + ":" + Concatenated(cfg.clientSecret)
  }

  /** The field names of the authorization request, in the order they are sent. */
  const AuthorizeNames: seq<string> := ["response_type", "scope", "client_id", "redirect_uri", "state"]

  /** The provider's authorization URL with the `authQuery` fields. */
  function AuthorizeTarget(cfg: Config, req: Request, scope: seq<string>, state: string): Target {
    Target(AuthorizeUrl, [
      Field("response_type", Str("code")),
      Field("scope", Str(Join(scope, ' '))),
      Field("client_id", OrUndefined(cfg.clientId)),
      Field("redirect_uri", Str(RedirectUri(cfg, req))),
      Field("state", Str(state))
    ])
  }

  /** The authorization URL is the provider's authorize endpoint with exactly
      the five fields of RFC 6749 section 4.1.1 that the relay sends, in order. */
  lemma AuthorizeFields(cfg: Config, req: Request, scope: seq<string>, state: string)
    ensures var t := AuthorizeTarget(cfg, req, scope, state);
            t.base == AuthorizeUrl && Names(t.query) == AuthorizeNames
  {
  }

  /** What the provider reads from the authorization URL (RFC 6749 section
      4.1.1): the code response type, the scopes joined by single spaces, the
      client id, this service's callback URL and the state. */
  lemma AuthorizeQuery(cfg: Config, req: Request, scope: seq<string>, state: string)
    ensures Lookup(AuthorizeTarget(cfg, req, scope, state).query, "response_type") == Some(Str("code"))
    ensures Lookup(AuthorizeTarget(cfg, req, scope, state).query, "scope") == Some(Str(Join(scope, ' ')))
    ensures Lookup(AuthorizeTarget(cfg, req, scope, state).query, "client_id") == Some(OrUndefined(cfg.clientId))
    ensures Lookup(AuthorizeTarget(cfg, req, scope, state).query, "redirect_uri") == Some(Str(RedirectUri(cfg, req)))
    ensures Lookup(AuthorizeTarget(cfg, req, scope, state).query, "state") == Some(Str(state))
  {
    var query := AuthorizeTarget(cfg, req, scope, state).query;
    LookupAt(query, 0);
    LookupAt(query, 1);
    LookupAt(query, 2);
    LookupAt(query, 3);
    LookupAt(query, 4);
  }

  /** The provider reads the scope list back from the space-joined field,
      as long as no scope itself holds a space. */
  lemma ScopeFieldRoundTrip(cfg: Config, req: Request, scope: seq<string>, state: string)
    requires |scope| >= 1 && forall i :: 0 <= i < |scope| ==> ' ' !in scope[i]
    ensures Split(AuthorizeTarget(cfg, req, scope, state).query[1].value.text, ' ') == scope
  {
    SplitJoin(scope, ' ');
  }

  /** `result(res, returnUrl, params)`: a redirect target at the return URL
      carrying the given fields; an undefined return URL takes the default
      parameter, the relative `/result`. */
  function ResultTarget(returnUrl: Option<string>, params: seq<Field>): (t: Target)
    ensures returnUrl.Some? ==> t.base == returnUrl.value
    ensures returnUrl.None? ==> t.base == DefaultReturnPath
    ensures t.query == params
  {
    Target(returnUrl.GetOr(DefaultReturnPath), params)
  }

  /** The error text `Status ${status}: ${statusText}`. */
  function StatusMessage(status: nat, statusText: string): string {
    "Status " + Decimal(status) + ": " + statusText
  }

  /** The form of the authorization-code exchange. */
  function AuthCodeRequest(cfg: Config, req: Request, code: Value): TokenRequest {
    TokenRequest(TokenUrl, [
      Field("code", code),
      Field("redirect_uri", Str(RedirectUri(cfg, req))),
      Field("grant_type", Str("authorization_code"))
    ], Credentials(cfg))
  }

  /** The authorization-code token request of RFC 6749 section 4.1.3: posted
      to the token endpoint with the client's credentials, carrying the code,
      the same callback URL the authorization request named, and the grant type. */
  lemma AuthCodeForm(cfg: Config, req: Request, code: Value)
    ensures var r := AuthCodeRequest(cfg, req, code);
            && r.url == TokenUrl && r.credentials == Credentials(cfg)
            && Names(r.form) == ["code", "redirect_uri", "grant_type"]
            && Lookup(r.form, "code") == Some(code)
            && Lookup(r.form, "redirect_uri") == Some(Str(RedirectUri(cfg, req)))
            && Lookup(r.form, "grant_type") == Some(Str("authorization_code"))
  {
    var form := AuthCodeRequest(cfg, req, code).form;
    LookupAt(form, 0);
    LookupAt(form, 1);
    LookupAt(form, 2);
  }

  /** The form of the refresh grant. */
  function RefreshRequest(cfg: Config, req: Request, token: Value): TokenRequest {
    TokenRequest(TokenUrl, [
      Field("refresh_token", token),
      Field("redirect_uri", Str(RedirectUri(cfg, req))),
      Field("grant_type", Str("refresh_token"))
    ], Credentials(cfg))
  }

  /** The refresh request of RFC 6749 section 6, with the callback URL added
      as the relay does. */
  lemma RefreshForm(cfg: Config, req: Request, token: Value)
    ensures var r := RefreshRequest(cfg, req, token);
            && r.url == TokenUrl && r.credentials == Credentials(cfg)
            && Names(r.form) == ["refresh_token", "redirect_uri", "grant_type"]
            && Lookup(r.form, "refresh_token") == Some(token)
            && Lookup(r.form, "redirect_uri") == Some(Str(RedirectUri(cfg, req)))
            && Lookup(r.form, "grant_type") == Some(Str("refresh_token"))
  {
    var form := RefreshRequest(cfg, req, token).form;
    LookupAt(form, 0);
    LookupAt(form, 1);
    LookupAt(form, 2);
  }

  /** `req.query.name || null`: a missing or empty parameter becomes null. */
  function OrNull(v: Option<string>): (r: Value)
    ensures r.Str? <==> Truthy(v)
    ensures r.Str? ==> r.text == v.value
  {
    if Truthy(v) then Str(v.value) else Null
  }

  /** A value passed on as is: undefined when missing, which `querystring`
      renders as the empty string. */
  function OrUndefined(v: Option<string>): (r: Value)
    ensures r.Str? <==> v.Some?
    ensures r.Str? ==> r.text == v.value
    ensures ValueText(r) == v.GetOr("")
  {
    if v.Some? then Str(v.value) else Null
  }

  /** A cookie of the jar, undefined when the browser holds none. */
  function Cookie(jar: Jar, name: string): (v: Option<string>)
    ensures v.Some? <==> name in jar
    ensures v.Some? ==> v.value == jar[name]
  {
    if name in jar then Some(jar[name]) else None
  }

  /** The callback's anti-CSRF test passes: the query carries a non-empty
      `state` and the jar holds that very value. */
  predicate StateMatches(req: Request, jar: Jar) {
    var state := QueryParam(req, "state");
    state.Some? && state.value != "" && StateCookie in jar && jar[StateCookie] == state.value
  }

  /** The error redirect of a failed token exchange. */
  function ErrorFields(message: string): seq<Field> {
    [Field("error", Str(message))]
  }

  // ---------------------------------------------------------------------
  // The handlers

  /** The two `res.cookie` calls of `/login`: the jar gains exactly the state
      and return-URL cookies, overwriting earlier values under those names,
      and keeps every other cookie. */
  function SetAuthCookies(jar: Jar, state: string, returnUrl: string): (j: Jar)
    ensures j.Keys == jar.Keys + {StateCookie, ReturnCookie}
    ensures forall k :: k in jar && k != StateCookie && k != ReturnCookie ==> j[k] == jar[k]
    ensures j[StateCookie] == state && j[ReturnCookie] == returnUrl
  {
    jar[StateCookie := state][ReturnCookie := returnUrl]
  }

  /** `/login` accepts the request: the return URL it resolves passes validation. */
  predicate LoginAccepts(cfg: Config, req: Request) {
    ValidReturnUrl(cfg, req, RequestParams(cfg, req).returnUrl)
  }

  /** `/login` with the freshly generated `state`: the 403 refusal, or the two
      auth cookies and the redirect to the provider. */
  function Login(cfg: Config, req: Request, state: string, jar: Jar): Step {
    var p := RequestParams(cfg, req);
    if !ValidReturnUrl(cfg, req, p.returnUrl) then
      Step(jar, Send(403, Plain(InvalidReturnUri)), [])
    else
      Step(SetAuthCookies(jar, state, p.returnUrl), Redirect(AuthorizeTarget(cfg, req, p.scope, state)), [])
  }

  /** A login whose return URL fails validation is refused with 403 and
      "Invalid return URI"; the jar is left alone and nothing is posted. */
  lemma LoginRefused(cfg: Config, req: Request, state: string, jar: Jar)
    requires !LoginAccepts(cfg, req)
    ensures Login(cfg, req, state, jar) == Step(jar, Send(403, Plain(InvalidReturnUri)), [])
  {
  }

  /** An accepted login changes exactly two cookies, the state and the
      resolved return URL, and redirects to the provider's authorization URL;
      nothing is posted. */
  lemma LoginAccepted(cfg: Config, req: Request, state: string, jar: Jar)
    requires LoginAccepts(cfg, req)
    ensures var s := Login(cfg, req, state, jar);
            && s.jar.Keys == jar.Keys + {StateCookie, ReturnCookie}
            && (forall k :: k in jar && k != StateCookie && k != ReturnCookie ==> s.jar[k] == jar[k])
            && s.jar[StateCookie] == state
            && s.jar[ReturnCookie] == RequestParams(cfg, req).returnUrl
            && s.response == Redirect(AuthorizeTarget(cfg, req, RequestParams(cfg, req).scope, state))
            && s.posted == []
  {
    var p := RequestParams(cfg, req);
    assert Login(cfg, req, state, jar) == Step(SetAuthCookies(jar, state, p.returnUrl), Redirect(AuthorizeTarget(cfg, req, p.scope, state)), []);
  }

  /** `/callback`. Both auth cookies are cleared on every path that answers.
      Without a matching state the browser goes back to the stored return URL
      (or `/result`) with `error=state_mismatch` and no token request is made;
      with one, exactly one authorization-code request is posted and its
      outcome is relayed to the stored return URL. When the endpoint gives no
      HTTP response the handler fails before answering, so nothing reaches
      the browser, not even the cleared cookies. */
  function Callback(cfg: Config, req: Request, outcome: Exchange, jar: Jar): (s: Step)
    ensures s.response != Unsent ==>
              && StateCookie !in s.jar && ReturnCookie !in s.jar
              && forall k :: k in jar && k != StateCookie && k != ReturnCookie ==> k in s.jar && s.jar[k] == jar[k]
    ensures s.response != Unsent ==> s.jar.Keys == jar.Keys - {StateCookie, ReturnCookie}
    ensures s.response == Unsent ==> s.jar == jar
    ensures !StateMatches(req, jar) ==>
              && s.posted == []
              && s.response == Redirect(ResultTarget(Cookie(jar, ReturnCookie), ErrorFields(StateMismatch)))
    ensures StateMatches(req, jar) ==>
              s.posted == [AuthCodeRequest(cfg, req, OrNull(QueryParam(req, "code")))]
    ensures StateMatches(req, jar) && outcome.Granted? ==>
              s.response == Redirect(ResultTarget(Cookie(jar, ReturnCookie), outcome.data))
    ensures StateMatches(req, jar) && outcome.Refused? ==>
              s.response == Redirect(ResultTarget(Cookie(jar, ReturnCookie),
                                                  ErrorFields(StatusMessage(outcome.status, outcome.statusText))))
    ensures s.response == Unsent <==> StateMatches(req, jar) && outcome.NoReply?
  {
    var code := OrNull(QueryParam(req, "code"));
    var state := OrNull(QueryParam(req, "state"));
    var storedState := Cookie(jar, StateCookie);
    var returnUrl := Cookie(jar, ReturnCookie);
    var cleared := jar - {StateCookie, ReturnCookie};
    if state.Null? || storedState != Some(state.text) then
      Step(cleared, Redirect(ResultTarget(returnUrl, ErrorFields(StateMismatch))), [])
    else
      var post := AuthCodeRequest(cfg, req, code);
      match outcome
      case Granted(data) => Step(cleared, Redirect(ResultTarget(returnUrl, data)), [post])
      case Refused(status, text) =>
        Step(cleared, Redirect(ResultTarget(returnUrl, ErrorFields(StatusMessage(status, text)))), [post])
      case NoReply => Step(jar, Unsent, [post])
  }

  /** `/refresh`: one refresh-grant request with the `refresh_token` parameter
      as given, the endpoint's data sent back as JSON, or its error status
      with an error body. No cookie is read or written and no state is checked. */
  function Refresh(cfg: Config, req: Request, outcome: Exchange, jar: Jar): (s: Step)
    ensures s.jar == jar
    ensures s.posted == [RefreshRequest(cfg, req, OrUndefined(QueryParam(req, "refresh_token")))]
    ensures outcome.Granted? ==> s.response == Send(200, Json(outcome.data))
    ensures outcome.Refused? ==> s.response.Send? && s.response.status == outcome.status
    ensures outcome.NoReply? ==> s.response == Unsent
  {
    var post := RefreshRequest(cfg, req, OrUndefined(QueryParam(req, "refresh_token")));
    match outcome
    case Granted(data) => Step(jar, Send(200, Json(data)), [post])
    case Refused(status, _) => Step(jar, Send(status, Opaque), [post])
    case NoReply => Step(jar, Unsent, [post])
  }

  // ---------------------------------------------------------------------
  // Properties of the flow

  /** The error message names the upstream status and status text
      unambiguously: two failures with the same message had the same status
      and the same text. */
  lemma StatusMessageInjective(s1: nat, t1: string, s2: nat, t2: string)
    requires StatusMessage(s1, t1) == StatusMessage(s2, t2)
    ensures s1 == s2 && t1 == t2
  {
    var d1, d2 := Decimal(s1), Decimal(s2);
    var r1, r2 := ": " + t1, ": " + t2;
    var m := StatusMessage(s1, t1);
    assert m == "Status " + (d1 + r1) == "Status " + (d2 + r2);
    assert d1 + r1 == m[7..] == d2 + r2;
    DigitsThenColon(d1, r1, d2, r2);
    DecimalInjective(s1, s2);
    assert r1 == (d1 + r1)[|d1|..] == (d2 + r2)[|d2|..] == r2;
    assert t1 == r1[2..] == r2[2..] == t2;
  }

  /** A run of digits ending where a colon starts splits one way only. */
  lemma DigitsThenColon(d1: string, r1: string, d2: string, r2: string)
    requires AllDigits(d1) && AllDigits(d2)
    requires |r1| > 0 && r1[0] == ':' && |r2| > 0 && r2[0] == ':'
    requires d1 + r1 == d2 + r2
    ensures d1 == d2
  {
    var m := d1 + r1;
    assert m[..|d1|] == d1 && m[..|d2|] == d2;
    assert ':' !in d1 && ':' !in d2;
    IndexOfFirst(m, ':', |d1|);
    IndexOfFirst(m, ':', |d2|);
    assert d1 == m[..|d1|] == d2;
  }

  /** As the browser reads it, the error redirect of a refused exchange
      carries the single field `error = "Status N: text"`: for a 400 with
      status text "Bad Request", `Status 400: Bad Request`. */
  lemma StatusMessageExample()
    ensures StatusMessage(400, "Bad Request") == "Status 400: Bad Request"
  {
    assert Decimal(4) == "4";
    assert Decimal(40) == "40";
    assert Decimal(400) == "400";
  }

  /** An accepted login sends the provider exactly the state it stores in the
      browser's cookie, the value the callback will compare against. */
  lemma LoginStateRoundTrip(cfg: Config, req: Request, state: string, jar: Jar)
    requires ValidReturnUrl(cfg, req, RequestParams(cfg, req).returnUrl)
    ensures var s := Login(cfg, req, state, jar);
            s.response.Redirect? && StateCookie in s.jar
            && Lookup(s.response.location.query, "state") == Some(Str(s.jar[StateCookie]))
  {
    AuthorizeQuery(cfg, req, RequestParams(cfg, req).scope, state);
  }

  /** A login without a `returnUrl` parameter is never refused: its return
      URL is the default result URL, which is always allowed. */
  lemma LoginDefaultAccepted(cfg: Config, req: Request, state: string, jar: Jar)
    requires !Truthy(QueryParam(req, "returnUrl"))
    ensures Login(cfg, req, state, jar).response.Redirect?
    ensures Login(cfg, req, state, jar).jar[ReturnCookie] == DefaultReturnUrl(cfg, req)
  {
  }

  /** After a successful login, a callback carrying the state the provider
      echoed passes the check, posts exactly one authorization-code request,
      and relays its outcome to the return URL that login validated. */
  lemma LoginThenCallback(cfg: Config, login: Request, state: string, jar: Jar,
                          callback: Request, outcome: Exchange)
    requires ValidReturnUrl(cfg, login, RequestParams(cfg, login).returnUrl)
    requires QueryParam(callback, "state") == Some(state) && state != ""
    ensures var c := Callback(cfg, callback, outcome, Login(cfg, login, state, jar).jar);
            && c.posted == [AuthCodeRequest(cfg, callback, OrNull(QueryParam(callback, "code")))]
            && (c.response.Redirect? ==>
                  && c.response.location.base == RequestParams(cfg, login).returnUrl
                  && ValidReturnUrl(cfg, login, c.response.location.base))
  {
    var l := Login(cfg, login, state, jar);
    assert StateMatches(callback, l.jar);
  }

  /** A callback whose state is not the one the login stored never reaches the
      token endpoint: it redirects to the stored return URL with
      `error=state_mismatch`. */
  lemma ForgedStateRejected(cfg: Config, login: Request, state: string, jar: Jar,
                            callback: Request, outcome: Exchange)
    requires ValidReturnUrl(cfg, login, RequestParams(cfg, login).returnUrl)
    requires QueryParam(callback, "state") != Some(state)
    ensures var c := Callback(cfg, callback, outcome, Login(cfg, login, state, jar).jar);
            && c.posted == []
            && c.response == Redirect(Target(RequestParams(cfg, login).returnUrl, ErrorFields(StateMismatch)))
  {
    var l := Login(cfg, login, state, jar);
    assert !StateMatches(callback, l.jar);
  }

  /** The state is single-use: once a callback has answered, a second callback
      fails the check whatever it carries, and, the return cookie being gone
      too, is sent to the relative `/result`. */
  lemma CallbackSingleUse(cfg: Config, first: Request, o1: Exchange, jar: Jar,
                          second: Request, o2: Exchange)
    requires Callback(cfg, first, o1, jar).response != Unsent
    ensures var j := Callback(cfg, first, o1, jar).jar;
            Callback(cfg, second, o2, j) ==
              Step(j, Redirect(Target(DefaultReturnPath, ErrorFields(StateMismatch))), [])
  {
    var j := Callback(cfg, first, o1, jar).jar;
    assert !StateMatches(second, j);
    assert j - {StateCookie, ReturnCookie} == j;
  }

  /** The return URL read back from the cookie is not validated again:
      whatever URL the return cookie holds, a successful callback redirects
      there with the token data. */
  lemma CallbackDoesNotRevalidate(cfg: Config, req: Request, jar: Jar, data: seq<Field>)
    requires StateMatches(req, jar) && ReturnCookie in jar
    ensures Callback(cfg, req, Granted(data), jar).response == Redirect(Target(jar[ReturnCookie], data))
  {
  }

  /** For instance a jar holding a URL the allow-list refuses still receives
      the redirect. */
  lemma CallbackDoesNotRevalidateExample()
    ensures var cfg := Config(None, Some("id"), Some("secret"), None);
            var req := Request("https", "relay.example", map["state" := "s1"]);
            var jar := map[StateCookie := "s1", ReturnCookie := "https://evil.example/"];
            var c := Callback(cfg, req, Granted([]), jar);
            && !ValidReturnUrl(cfg, req, "https://evil.example/")
            && c.response == Redirect(Target("https://evil.example/", []))
  {
    var cfg := Config(None, Some("id"), Some("secret"), None);
    var req := Request("https", "relay.example", map["state" := "s1"]);
    assert |DefaultReturnUrl(cfg, req)| == 28;
    var jar := map[StateCookie := "s1", ReturnCookie := "https://evil.example/"];
    assert StateMatches(req, jar);
  }

  /** Rendered as the string passed to `res.redirect`, a successful
      callback's redirect is the return URL, `?`, and a query that reads back as exactly the token
      endpoint's fields, in order. `esc`/`unesc` stand for the percent-encoding
      routines. */
  lemma CallbackDeliversTokenData(cfg: Config, req: Request, data: seq<Field>, jar: Jar,
                                  esc: string -> string, unesc: string -> string)
    requires StateMatches(req, jar)
    requires Escapes(esc) && Unescapes(unesc, esc)
    ensures var t := Callback(cfg, req, Granted(data), jar).response.location;
            var url := Href(t, esc);
            && t.base == Cookie(jar, ReturnCookie).GetOr(DefaultReturnPath)
            && url[..|t.base| + 1] == t.base + "?"
            && Parse(url[|t.base| + 1..], unesc) == Decoded(data)
  {
    var t := Callback(cfg, req, Granted(data), jar).response.location;
    assert t == Target(Cookie(jar, ReturnCookie).GetOr(DefaultReturnPath), data);
    var url := Href(t, esc);
    assert url[|t.base| + 1..] == Stringify(data, esc);
    StringifyParse(data, esc, unesc);
  }

  /** Likewise a refused exchange reaches the return URL as the single pair
      `error = "Status N: text"`. */
  lemma CallbackDeliversError(cfg: Config, req: Request, status: nat, text: string, jar: Jar,
                              esc: string -> string, unesc: string -> string)
    requires StateMatches(req, jar)
    requires Escapes(esc) && Unescapes(unesc, esc)
    ensures var t := Callback(cfg, req, Refused(status, text), jar).response.location;
            var url := Href(t, esc);
            Parse(url[|t.base| + 1..], unesc) == [("error", "Status " + Decimal(status) + ": " + text)]
  {
    var t := Callback(cfg, req, Refused(status, text), jar).response.location;
    var fields := ErrorFields(StatusMessage(status, text));
    assert t.query == fields;
    StringifyParse(fields, esc, unesc);
  }

  /** The two auth cookies are set together and cleared together. */
  ghost predicate Paired(jar: Jar) {
    StateCookie in jar <==> ReturnCookie in jar
  }

  lemma RoutesKeepPaired(cfg: Config, req: Request, state: string, outcome: Exchange, jar: Jar)
    requires Paired(jar)
    ensures Paired(Login(cfg, req, state, jar).jar)
    ensures Paired(Callback(cfg, req, outcome, jar).jar)
    ensures Paired(Refresh(cfg, req, outcome, jar).jar)
  {
  }
}
