# spotify-web-api-auth: the OAuth relay as a Dafny model

The relay is a small Express server. It lets a front-end obtain tokens for the
Spotify Web API through the OAuth 2.0 authorization-code grant (RFC 6749)
without holding the client secret itself:

- `/login` resolves the requested scope and return URL and validates the
  return URL against an allow-list. It stores a fresh `state` and the return
  URL in two cookies, then redirects the browser to the provider's consent page.
- `/callback` checks the `state` the provider echoes against the cookie and
  clears both cookies. It exchanges the code for tokens at the token endpoint
  and redirects the browser to the stored return URL, with the token fields
  or an `error` in the query.
- `/refresh` passes a refresh-token grant through to the token endpoint and
  sends the answer back.

The model has six modules:

- `Wrappers`: `Option`.
- `Text`: JavaScript's `split`, `join`, `indexOf` and the decimal rendering
  of a number, with their round-trip lemmas.
- `QueryString`: `querystring.stringify` over ordered fields, plus `Parse`,
  its inverse reading.
- `Resolve`: the configuration and the pure helpers `appUrl`, `redirectUri`,
  `requestParams`, `validReturnUrl` and the allow-list.
- `Routes`: each handler as a function from the configuration, the request,
  the browser's cookie jar and the token endpoint's answer to a `Step`. A
  `Step` holds the new jar, the response and the token requests posted.
  `Routes` also proves the properties of the whole flow.
- `Server`: class `Session`, holding a browser's jar, its last response and
  the log of token requests. Its handler methods update those fields step by
  step, as the Express handlers do, and are proved to produce exactly the
  step the `Routes` functions describe.

Some code paths are easy to misread, so they are stated outright:

- `/login` falls back to the absolute URL of the service's own `/result`
  page.
- The callback falls back to the relative `/result`. That is the default
  parameter of `result`, used when the return cookie is absent.
- The callback never re-validates the return URL it reads from the cookie.
- An empty `state` or `code` query value becomes `null` (`|| null`). So an
  empty `state` always fails the check.

The following are parameters of the model:

- the `uniqid()` state (an argument of `Login`);
- the token endpoint's answer (`Exchange`: `Granted` data, `Refused` with an
  HTTP status, or `NoReply` when no HTTP response arrives);
- the environment (`Config`);
- the percent-escaping routine of `querystring` (`esc`/`unesc`, assumed
  never to emit `&` or `=` and to be inverted by `unesc`).

## Model

| member | source | states |
|---|---|---|
| Resolve.Port | index.js:9 | the port is configured exactly when `PORT` is set and non-empty, and is then that setting |
| Resolve.AppUrl | index.js:32-34 | the URL is the scheme, `://` and host, then `:PORT` only when a port is configured, then the path, and nothing else |
| Resolve.RedirectUri | index.js:36-38 | the callback URL is the app URL of `/callback` and ends in `/callback` |
| Resolve.DefaultReturnUrl | index.js:29-50 | the default return URL is the app URL of `/result` and ends in `/result` |
| Resolve.AppUrlInjective | index.js:32-34 | two app URLs of one request are equal only for the same path |
| Resolve.RedirectUriIsNotResultUrl | index.js:36-50 | the callback URL is never the default result URL |
| Resolve.QueryParam | index.js:41-42 | a parameter is present exactly when the query carries it, and is then its value |
| Resolve.RequestParams | index.js:40-47 | a non-empty `scope` splits into comma-free parts that join back to it, otherwise the scope is the eight default scopes; a non-empty `returnUrl` is used verbatim, otherwise the absolute default URL; the scope list and return URL are never empty |
| Resolve.AllowList | index.js:30 | a set, non-empty `VALID_RETURN_URLS` splits into comma-free URLs that join back to it; otherwise the list is empty |
| Resolve.AllowListSingle | index.js:30 | a setting holding one URL allows exactly that URL |
| Resolve.ValidReturnUrl | index.js:49-53 | a URL is valid if and only if it equals the default result URL or is a member of the allow-list; with no allow-list, only the default is valid |
| Resolve.NoPrefixMatch | index.js:49-53 | matching is exact: an allowed URL is valid, and a longer URL extending it is not unless it is itself the default or listed |
| Resolve.NoPrefixMatchExample | index.js:49-53 | for example, with the allow-list `https://app.example/done`, the URL `https://app.example/done/x` is refused |
| Text.JoinSplit | index.js:41 | joining the pieces of a split on one separator gives back the string |
| Text.SplitJoin | index.js:30 | splitting a join of non-empty separator-free parts gives back the parts |
| Text.IndexOf | index.js:51 | the result is -1 exactly when the element is absent, and otherwise the first position holding it |
| Text.Decimal | index.js:146 | a number is rendered as a non-empty run of digits with no leading zero |
| Text.DecimalRoundTrip | index.js:146 | reading a rendered number back gives the number |
| Text.DecimalInjective | index.js:146 | distinct numbers render as distinct numerals |
| QueryString.Lookup | index.js:56 | a name is found exactly when some field carries it |
| QueryString.LookupAt | index.js:56 | a field whose name no earlier field carries is what a reader finds under that name |
| QueryString.Href | index.js:56 | the rendered URL is the base, then `?`, then exactly the stringified query |
| QueryString.StringifyParse | index.js:56 | a stringified query reads back as exactly its names and rendered values, in order |
| Routes.ResultTarget | index.js:55-57 | the redirect goes to the given return URL, or to the relative `/result` when it is undefined, and carries exactly the given fields |
| Routes.Concatenated | index.js:138 | an environment value in string concatenation is its text, or `undefined` when unset |
| Routes.Credentials | index.js:138 | the Basic credentials are the client id, one colon and the client secret, each reading `undefined` when unset |
| Routes.AuthorizeFields | index.js:104-112 | the authorization URL is the provider's authorize endpoint with exactly the fields `response_type`, `scope`, `client_id`, `redirect_uri` and `state`, in that order |
| Routes.AuthorizeQuery | index.js:104-112 | the authorization request carries `code`, the scopes joined by spaces, the client id (undefined, rendered empty, when unset), the callback URL and the state |
| Routes.ScopeFieldRoundTrip | index.js:106 | the provider recovers the scope list from the space-joined field when no scope holds a space |
| Routes.SetAuthCookies | index.js:101-102 | the jar gains exactly the state and return-URL cookies with the given values and keeps every other cookie |
| Routes.LoginRefused | index.js:96-99 | a login whose return URL is invalid gets 403 `Invalid return URI`, with no cookie set and nothing posted |
| Routes.LoginAccepted | index.js:89-115 | an accepted login sets exactly the two auth cookies (the state and the resolved return URL), leaves every other cookie alone, redirects to the authorization URL built from the resolved scope and the state, and posts nothing |
| Routes.LoginStateRoundTrip | index.js:101-109 | the state sent to the provider is the value stored in the state cookie |
| Routes.LoginDefaultAccepted | index.js:42-50 | a login without `returnUrl` is never refused, and stores the absolute default result URL |
| Routes.OrNull | index.js:118-119 | a missing or empty parameter becomes null, any other value is kept |
| Routes.OrUndefined | index.js:153 | the refresh token is passed on exactly as given, undefined (rendered empty) when missing |
| Routes.Cookie | index.js:120-121 | a cookie is read exactly when the jar holds it |
| Routes.AuthCodeForm | index.js:131-141 | the code exchange posts to the token endpoint with the client credentials and exactly the fields `code`, `redirect_uri` (the same callback URL) and `grant_type=authorization_code` |
| Routes.Callback | index.js:117-149 | every answered callback clears both auth cookies and keeps every other cookie; without a matching non-empty state it redirects to the stored return URL (or `/result`) with `error=state_mismatch` and posts nothing; with one it posts exactly one code exchange and redirects the granted data or `Status N: text` to the stored return URL; no response is sent, and the jar is unchanged, exactly when the state matches and the exchange gets no HTTP response |
| Routes.LoginThenCallback | index.js:101-144 | after an accepted login, a callback with the echoed state posts exactly one code exchange and any redirect goes to the return URL login validated |
| Routes.ForgedStateRejected | index.js:126-129 | after a login, a callback with any other state posts nothing and redirects to the stored return URL with `error=state_mismatch` |
| Routes.CallbackSingleUse | index.js:123-129 | once a callback has answered, any later callback fails the state check and is sent to the relative `/result` with `error=state_mismatch` |
| Routes.CallbackDoesNotRevalidate | index.js:121-143 | whatever URL the return cookie holds, a successful callback redirects there with the token data, with no allow-list test |
| Routes.CallbackDoesNotRevalidateExample | index.js:121-143 | for example, a cookie holding a URL the allow-list refuses still receives the redirect |
| Routes.CallbackDeliversTokenData | index.js:142-144 | the URL a successful callback passes to `res.redirect` is the return URL, `?`, and a query that reads back as exactly the token endpoint's fields, in order |
| Routes.CallbackDeliversError | index.js:145-147 | a refused exchange reaches the return URL as the single pair `error = Status N: text` |
| Routes.StatusMessageInjective | index.js:146 | the error message determines the upstream status and status text |
| Routes.StatusMessageExample | index.js:146 | a 400 with status text `Bad Request` gives `Status 400: Bad Request` |
| Routes.RefreshForm | index.js:153-165 | the refresh posts to the token endpoint with the client credentials and exactly the fields `refresh_token`, `redirect_uri` and `grant_type=refresh_token` |
| Routes.Refresh | index.js:151-173 | the jar is untouched; exactly one refresh request is posted with the token as given; granted data is sent back with status 200, a refusal with the upstream status, and nothing is sent when no HTTP response arrives |
| Routes.RoutesKeepPaired | index.js:101-124 | no handler leaves one auth cookie without the other |
| Server.Session.Login | index.js:89-115 | the handler's cookie writes and response are exactly the `Routes.Login` step, and the two auth cookies stay paired |
| Server.Session.Callback | index.js:117-149 | the handler's cookie clears, token request and response are exactly the `Routes.Callback` step, and the two auth cookies stay paired |
| Server.Session.Refresh | index.js:151-173 | the handler's token request and response are exactly the `Routes.Refresh` step, and the jar is unchanged |
| Server.LoginRoundTrip | index.js:89-149 | a browser that logs in and returns with the echoed state receives the token data at the return URL it asked for, and holds neither auth cookie afterwards |

## Left out

- Express, CORS, cookie parsing, `trust proxy` and `app.listen` (index.js:1-8, 59-61, 179-181) are not modelled. A request is its scheme, host and query; the jar is a map of names to values.
- The `/debug` and `/result` routes (index.js:63-87, 175-177) are not modelled. Neither makes a decision beyond those already modelled.
- The network calls of `axios.post` are not modelled. The token endpoint's answer is the `Exchange` parameter of `Callback` and `Refresh`.
- Routes.Login: `uniqid()` is a parameter, so the freshness of the state is not captured.
- The percent-encoding of `querystring` is the parameter `esc`. It is constrained only by `Escapes` and `Unescapes`.
- The base64 encoding of the `Authorization` header is not modelled. A token request carries the credentials before encoding.
- Query values that are arrays or objects (repeated or bracketed parameters) are not modelled. Every query value is a single string.
- The token endpoint's data is modelled as a flat list of named fields. Nested JSON values are not represented.
- Routes.Refresh: the error body `res.send(error)` is left opaque (`Opaque`), so the contract states only the status of a refusal.
- The `req.cookies` falsy branch at index.js:120-121 is not modelled. The cookie parser always supplies an object, so that branch cannot be reached. An absent return cookie is undefined and `result` turns it into `/result`.
- An exception raised inside the callback's `catch` handler is modelled only as "nothing is sent" (`NoReply`). `error.response` is undefined when no HTTP response arrives. Its effect on the process, an unhandled rejection, is not modelled.
- `PORT` is kept as the string the environment holds. Its numeric use by `app.listen` is left out.
- `dotenv` loading is not modelled. `Config` is the environment after loading.
- The encoding Express applies to a redirect's `Location` header (`encodeurl`) is not modelled. A redirect is modelled as the string the handler passes to `res.redirect`.
