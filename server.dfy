/**
 * The route handlers as the server runs them: each call handles one request
 * from a browser, setting and clearing cookies and filling in the response
 * step by step as the Express handlers do. A Session holds that browser's
 * cookie jar, the last response it received and every request the server
 * posted to the token endpoint on its behalf. Each handler is proved to do
 * exactly what the matching decision function of Routes describes.
 */
module Server {
  import opened Wrappers
  import opened QueryString
  import opened Resolve
  import opened Routes

  class Session {
    const cfg: Config
    var jar: Jar
    var response: Response
    var posted: seq<TokenRequest>

    constructor (cfg: Config, jar: Jar)
      ensures this.cfg == cfg && this.jar == jar
      ensures response == Unsent && posted == []
    {
      this.cfg := cfg;
      this.jar := jar;
      response := Unsent;
      posted := [];
    }

    /** `GET /login`, with `state` the value `uniqid()` produced. */
    method Login(req: Request, state: string)
      modifies this
      ensures var s := Routes.Login(cfg, req, state, old(jar));
              jar == s.jar && response == s.response && posted == old(posted) + s.posted
      ensures Routes.Paired(old(jar)) ==> Routes.Paired(jar)
    {
      var p := RequestParams(cfg, req);
      if ValidReturnUrl(cfg, req, p.returnUrl) {
        jar := jar[StateCookie := state];
        jar := jar[ReturnCookie := p.returnUrl];
        assert jar == SetAuthCookies(old(jar), state, p.returnUrl);
        response := Redirect(AuthorizeTarget(cfg, req, p.scope, state));
      } else {
        response := Send(403, Plain(InvalidReturnUri));
      }
    }

    /** `GET /callback`, with `outcome` the token endpoint's answer to the
        exchange the handler posts (unused when it posts none). */
    method Callback(req: Request, outcome: Exchange)
      modifies this
      ensures var s := Routes.Callback(cfg, req, outcome, old(jar));
              jar == s.jar && response == s.response && posted == old(posted) + s.posted
      ensures Routes.Paired(old(jar)) ==> Routes.Paired(jar)
    {
      var code := OrNull(QueryParam(req, "code"));
      var state := OrNull(QueryParam(req, "state"));
      var storedState := Cookie(jar, StateCookie);
      var returnUrl := Cookie(jar, ReturnCookie);
      // The two clearCookie calls: they reach the browser with the response.
      var cleared := jar - {StateCookie};
      cleared := cleared - {ReturnCookie};
      assert cleared == jar - {StateCookie, ReturnCookie};
      if state.Null? || storedState != Some(state.text) {
        jar := cleared;
        response := Redirect(ResultTarget(returnUrl, ErrorFields(StateMismatch)));
        return;
      }
      posted := posted + [AuthCodeRequest(cfg, req, code)];
      match outcome {
        case Granted(data) =>
          jar := cleared;
          response := Redirect(ResultTarget(returnUrl, data));
        case Refused(status, text) =>
          jar := cleared;
          response := Redirect(ResultTarget(returnUrl, ErrorFields(StatusMessage(status, text))));
        case NoReply =>
          response := Unsent;
      }
    }

    /** `GET /refresh`, with `outcome` the token endpoint's answer. */
    method Refresh(req: Request, outcome: Exchange)
      modifies this
      ensures var s := Routes.Refresh(cfg, req, outcome, old(jar));
              jar == s.jar && response == s.response && posted == old(posted) + s.posted
      ensures jar == old(jar)
    {
      var refreshToken := OrUndefined(QueryParam(req, "refresh_token"));
      posted := posted + [RefreshRequest(cfg, req, refreshToken)];
      match outcome {
        case Granted(data) =>
          response := Send(200, Json(data));
        case Refused(status, _) =>
          response := Send(status, Opaque);
        case NoReply =>
          response := Unsent;
      }
    }
  }

  /** A browser that logs in and comes back with the state the provider
      echoed gets its token data delivered to the return URL it asked for,
      and is left with neither auth cookie. */
  method LoginRoundTrip(cfg: Config, req: Request, state: string, code: string, data: seq<Field>)
      returns (delivered: Response, cookies: Jar)
    requires state != ""
    requires ValidReturnUrl(cfg, req, RequestParams(cfg, req).returnUrl)
    ensures delivered == Redirect(Target(RequestParams(cfg, req).returnUrl, data))
    ensures StateCookie !in cookies && ReturnCookie !in cookies
  {
    var session := new Session(cfg, map[]);
    session.Login(req, state);
    var back := Request(req.protocol, req.hostname, map["state" := state, "code" := code]);
    assert QueryParam(back, "state") == Some(state);
    session.Callback(back, Granted(data));
    delivered, cookies := session.response, session.jar;
  }
}
