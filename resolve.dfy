/**
 * The relay's configuration and the pure helpers every route uses: the
 * service's own absolute URLs, the scope and return URL a request asks for,
 * and the return-URL allow-list that guards against open redirects
 * (section 10.12 and 10.15 of RFC 6749 motivate the `state` and redirect checks).
 */
module Resolve {
  import opened Wrappers
  import opened Text

  /** The environment the server starts with: `PORT`, the client credentials
      `SPOTIFY_CLIENT_ID` and `SPOTIFY_CLIENT_SECRET`, and `VALID_RETURN_URLS`,
      each possibly unset. */
  datatype Config = Config(
    portEnv: Option<string>,
    clientId: Option<string>,
    clientSecret: Option<string>,
    validReturnUrlsEnv: Option<string>)

  /** What a handler reads of an incoming request: the scheme and host Express
      reports (behind a proxy, from its forwarding headers) and the query
      parameters, each a single string. */
  datatype Request = Request(protocol: string, hostname: string, query: map<string, string>)

  /** The resolved inputs of an authorization attempt. */
  datatype Params = Params(scope: seq<string>, returnUrl: string)

  const DefaultReturnPath := "/result"
  const CallbackPath := "/callback"

  /** The scopes requested when the caller names none. */
  const DefaultScope: seq<string> := [
    "playlist-read-collaborative",
    "playlist-read-private",
    "user-library-read",
    "user-modify-playback-state",
    "user-read-currently-playing",
    "user-read-email",
    "user-read-playback-state",
    "user-read-private"
  ]

  /** JavaScript truthiness of an optional string: present and not empty. */
  predicate Truthy(v: Option<string>) {
    v.Some? && v.value != ""
  }

  /** A query parameter; None when the request does not carry it. */
  function QueryParam(req: Request, name: string): (v: Option<string>)
    ensures v.Some? <==> name in req.query
    ensures v.Some? ==> v.value == req.query[name]
  {
    if name in req.query then Some(req.query[name]) else None
  }

  /** `process.env.PORT || null`: an empty setting counts as unset. */
  function Port(cfg: Config): (p: Option<string>)
    ensures p.Some? <==> Truthy(cfg.portEnv)
    ensures p.Some? ==> p == cfg.portEnv
  {
    if Truthy(cfg.portEnv) then cfg.portEnv else None
  }

  /** `appUrl(path, req)`: scheme, `://`, host, `:PORT` when a port is
      configured, then the path. */
  function AppUrl(cfg: Config, req: Request, path: string): (url: string)
    ensures var origin := req.protocol + "://" + req.hostname;
            var port := if Port(cfg).Some? then ":" + Port(cfg).value else "";
            && |url| == |origin| + |port| + |path|
            && url[..|origin|] == origin
            && url[|origin|..|origin| + |port|] == port
            && url[|url| - |path|..] == path
  {
    var port := if Port(cfg).Some? then ":" + Port(cfg).value else "";
    req.protocol + "://" + req.hostname + port + path
  }

  /** The provider redirects back here: `appUrl('/callback')`. */
  function RedirectUri(cfg: Config, req: Request): (url: string)
    ensures url == AppUrl(cfg, req, CallbackPath)
    ensures url[|url| - |CallbackPath|..] == CallbackPath
  {
    AppUrl(cfg, req, CallbackPath)
  }

  /** The absolute URL of the service's own `/result` page. */
  function DefaultReturnUrl(cfg: Config, req: Request): (url: string)
    ensures url == AppUrl(cfg, req, DefaultReturnPath)
    ensures url[|url| - |DefaultReturnPath|..] == DefaultReturnPath
  {
    AppUrl(cfg, req, DefaultReturnPath)
  }

  /** Two app URLs of one request coincide only for the same path. */
  lemma AppUrlInjective(cfg: Config, req: Request, p: string, q: string)
    requires AppUrl(cfg, req, p) == AppUrl(cfg, req, q)
    ensures p == q
  {
    var u := AppUrl(cfg, req, p);
    assert |p| == |q|;
    assert p == u[|u| - |p|..] == q;
  }

  /** In particular the callback URL handed to the provider is never the default result URL. */
  lemma RedirectUriIsNotResultUrl(cfg: Config, req: Request)
    ensures RedirectUri(cfg, req) != DefaultReturnUrl(cfg, req)
  {
    if RedirectUri(cfg, req) == DefaultReturnUrl(cfg, req) {
      AppUrlInjective(cfg, req, CallbackPath, DefaultReturnPath);
    }
  }

  /** `requestParams(req)`: the comma-separated `scope` and the `returnUrl`
      parameter, each replaced by its default when missing or empty. */
  function RequestParams(cfg: Config, req: Request): (p: Params)
    ensures var scope := QueryParam(req, "scope");
            && (Truthy(scope) ==> Join(p.scope, ',') == scope.value
                                  && forall i :: 0 <= i < |p.scope| ==> ',' !in p.scope[i])
            && (!Truthy(scope) ==> p.scope == DefaultScope)
    ensures |p.scope| >= 1
    ensures var ret := QueryParam(req, "returnUrl");
            p.returnUrl == if Truthy(ret) then ret.value else DefaultReturnUrl(cfg, req)
    ensures p.returnUrl != ""
  {
    var scope := QueryParam(req, "scope");
    var ret := QueryParam(req, "returnUrl");
    if Truthy(scope) then
      JoinSplit(scope.value, ',');
      Params(Split(scope.value, ','), if Truthy(ret) then ret.value else DefaultReturnUrl(cfg, req))
    else
      Params(DefaultScope, if Truthy(ret) then ret.value else DefaultReturnUrl(cfg, req))
  }

  /** `validReturnUrls`: the comma-separated `VALID_RETURN_URLS`, or nothing
      when it is unset or empty. */
  function AllowList(cfg: Config): (urls: seq<string>)
    ensures Truthy(cfg.validReturnUrlsEnv) ==>
              |urls| >= 1 && Join(urls, ',') == cfg.validReturnUrlsEnv.value
              && forall i :: 0 <= i < |urls| ==> ',' !in urls[i]
    ensures !Truthy(cfg.validReturnUrlsEnv) ==> urls == []
  {
    if Truthy(cfg.validReturnUrlsEnv) then
      JoinSplit(cfg.validReturnUrlsEnv.value, ',');
      Split(cfg.validReturnUrlsEnv.value, ',')
    else []
  }

  /** A configured list of one URL allows exactly that URL. */
  lemma AllowListSingle(cfg: Config, url: string)
    requires cfg.validReturnUrlsEnv == Some(url) && url != "" && ',' !in url
    ensures AllowList(cfg) == [url]
  {
    SplitJoin([url], ',');
  }

  /** `validReturnUrl(u, req)`: an exact-string test, true for the default
      result URL and for members of the allow-list, with no prefix or pattern
      matching. */
  function ValidReturnUrl(cfg: Config, req: Request, u: string): (ok: bool)
    ensures ok <==> u == DefaultReturnUrl(cfg, req) || u in AllowList(cfg)
    ensures !Truthy(cfg.validReturnUrlsEnv) ==> (ok <==> u == DefaultReturnUrl(cfg, req))
  {
    if u == DefaultReturnUrl(cfg, req) then true
    else if IndexOf(AllowList(cfg), u) > -1 then true
    else false
  }

  /** An allowed URL does not make its extensions allowed: a URL that extends
      an allowed one is valid only if it is itself the default or listed. */
  lemma NoPrefixMatch(cfg: Config, req: Request, u: string, x: string)
    requires u in AllowList(cfg) && x != ""
    requires u + x != DefaultReturnUrl(cfg, req) && u + x !in AllowList(cfg)
    ensures ValidReturnUrl(cfg, req, u) && !ValidReturnUrl(cfg, req, u + x)
  {
  }

  /** For instance, with the allow-list
      `https://app.example/done`, the longer `https://app.example/done/x`
      is refused on a plain HTTP request to `relay.example`. */
  lemma NoPrefixMatchExample()
    ensures var cfg := Config(None, Some("id"), Some("secret"), Some("https://app.example/done"));
            var req := Request("http", "relay.example", map[]);
            ValidReturnUrl(cfg, req, "https://app.example/done")
            && !ValidReturnUrl(cfg, req, "https://app.example/done/x")
  {
    var cfg := Config(None, Some("id"), Some("secret"), Some("https://app.example/done"));
    var req := Request("http", "relay.example", map[]);
    AllowListSingle(cfg, "https://app.example/done");
    assert |DefaultReturnUrl(cfg, req)| == 27;
  }
}
