# ImgurLib credential state and request dispatch, modelled in Dafny

This project models the core of `imgurlib.py`, a Python client for the authenticated Imgur API (version 2).
The client obtains OAuth 1.0a credentials through the three-legged flow of RFC 5849:

- temporary credentials, section 2.1;
- the resource-owner authorization URL, section 2.2;
- token credentials exchanged with a verifier (the "pin"), section 2.3.

After that it sends every API call through one function, `_submit_request`.
That function maps five HTTP status strings to exception kinds and returns the raw body for every other status.

The model has five modules, one file each:

- `wrappers.dfy` (`Wrappers`): the `Option` type, for Python's `None`.
- `pytext.dfy` (`PyText`): the two pieces of Python string semantics the library relies on:
  - `Contains` is `t in s` on strings, proved equal to "some index where `t` occurs";
  - `Format` is `template % args` for `%s` and `%%`, with exact-arity errors. `Holes` counts the arguments a template takes.
- `dispatch.dfy` (`Dispatch`): the status table.
  - `Outcome<T>` is `Ok(value)` or `Raised(kind)`, for the five kinds `ParameterMissing`, `UserAuthentication`, `Forbidden`, `NotSupportedAction` and `InternalError`.
  - `Classify` is the table lookup. `StatusOf` is the table read backwards.
  - `ProbeVerdict` is the `try`/`except` of `authorize_with_token`.
- `endpoints.dfy` (`Endpoints`): the fixed URLs and the derived strings:
  - the authorization URL and the per-image endpoint, each with a function that reads its argument back;
  - the upload type choice, `SelectUpload`;
  - the forum and HTML links of `generate_links`, `GenerateLinks`.

  The library's `%` templates are spelled as concatenations of their literal pieces around each `%s`. The strings are the same as the library's.
- `imgur.dfy` (`Imgur`): the `ImgurLib` class, with the fields `client`, `oauthToken`, `oauthTokenSecret`, `token` and `tokenU`.
  - Its methods take the HTTP response as a parameter.
  - A ghost field `sent` logs every request handed to the transport, with the `Client` (consumer and token) that would sign it.
  - `Valid()` is the invariant every state-changing method keeps: the client signs with the installed token, and that token is the pair in `oauthToken`/`oauthTokenSecret`.

The handshake methods follow the code, which is not transactional:

- `get_auth_url` installs the request token before it looks at the status.
- `authorize` installs the token credentials and a client signing with them before it looks at the status.
- `authorize_with_token` installs the given pair first and never rolls it back. A 401 from the probe reads as `false`; any other raised kind propagates.

## Behaviour worth knowing

- Both handshake methods install the returned tokens whatever the status: `authorize` sets the token fields, `token` and the client before testing for 200 (imgurlib.py:60-65), and `get_auth_url` sets `token_u` before testing for 200 (imgurlib.py:99-102). A failed handshake still changes the client's state.
- Statuses outside the table, 500 included, return the body just as 200 does (imgurlib.py:296-298): `Classify("500", b) == Ok(b)`.
- `authorize_with_token` lets every raised kind except `UserAuthenticationException` propagate (imgurlib.py:85-89).
- `get_auth_url` signs its request-token POST with whatever client is current (imgurlib.py:98). After an authorization, that client holds the access token, so a second `get_auth_url` sends the access token along with the request-token POST.

## Model

| member | source | states |
|---|---|---|
| `Dispatch.StatusOf` | imgurlib.py:288-294 | each exception kind has a status string that the table maps back to that kind |
| `Dispatch.Classify` | imgurlib.py:288-298 | a raised kind is raised only for that kind's status; a returned value is the body unchanged, and no kind's status returns |
| `Dispatch.ClassifyRaisesAt` | imgurlib.py:288-297 | each of the five statuses raises its own kind, whatever the body |
| `Dispatch.ClassifyRaisesIff` | imgurlib.py:288-297 | a call raises kind k exactly when the status is k's status |
| `Dispatch.ClassifyOkIff` | imgurlib.py:296-298 | the body comes back unchanged exactly when the status is none of 400, 401, 403, 404, 505 |
| `Dispatch.ClassifyUnlisted` | imgurlib.py:296-298 | statuses 200 and 500 both return the body unchanged |
| `Dispatch.ProbeVerdict` | imgurlib.py:85-89 | a normal probe return gives true; UserAuthentication gives false; every other kind propagates unchanged |
| `PyText.Contains` | imgurlib.py:131 | Python's substring test is true exactly when the pattern occurs at some index of the string |
| `PyText.Format` | imgurlib.py:276-277 | `%`-interpolation succeeds exactly when the argument count equals the number of `%s` directives |
| `PyText.FormatOne` | imgurlib.py:164 | a template with one `%s` and no other `%` gives its text with the argument put in place of the directive |
| `PyText.FormatTwo` | imgurlib.py:276-277 | a template with two `%s` and no other `%` gives its text with the two arguments put in, in order |
| `Endpoints.AuthorizeUrl` | imgurlib.py:103 | the authorization URL is the authorize endpoint, then `?oauth_token=`, then the request token |
| `Endpoints.AuthorizeUrlRoundTrip` | imgurlib.py:103 | the request token can be read back from the authorization URL, and the URL contains it |
| `Endpoints.ImageUrl` | imgurlib.py:164 | the per-image endpoint is `http://api.imgur.com/2/account/images/`, then the hash, then `.json` |
| `Endpoints.ImageUrlRoundTrip` | imgurlib.py:177 | the hash can be read back from the per-image endpoint, so distinct hashes give distinct endpoints |
| `Endpoints.SelectUpload` | imgurlib.py:131-136 | type `url` with the filename as payload exactly when the filename contains `http://`; otherwise type `base64` with the file's encoded contents |
| `Endpoints.HttpAnywhereIsUrl` | imgurlib.py:131-133 | a filename with `http://` anywhere in it, not just at the start, is uploaded as a URL |
| `Endpoints.HttpsIsFile` | imgurlib.py:131-136 | an `https://` address with no `http://` in it is taken for a local file and uploaded as base64 |
| `Endpoints.GenerateLinks` | imgurlib.py:268-280 | an unsuccessful fetch gives None; a successful one gives the forum tag `[url=o][img]q[/img][/url]` and the anchor `<a href="o" target="_blank"><img src="q" /></a>` |
| `Endpoints.LinksEmbedBothUrls` | imgurlib.py:274-277 | both links contain both the original URL and the small-square thumbnail URL |
| `Imgur.ImgurLib.constructor` | imgurlib.py:30-45 | the client holds the consumer and no token; `oauth_token`, `oauth_token_secret`, `token` and `token_u` are all empty; the invariant holds |
| `Imgur.ImgurLib.GetAuthUrl` | imgurlib.py:91-106 | one POST to the request-token endpoint, signed with the installed token; `token_u` becomes the returned pair whatever the status; the authorization URL is returned on 200, None otherwise; nothing else changes, and the invariant holds |
| `Imgur.ImgurLib.Authorize` | imgurlib.py:47-68 | the pin becomes `token_u`'s verifier; one POST to the access-token endpoint signed with `token_u`; then the returned pair becomes the token fields, `token` and the client's token whatever the status; the result is true exactly on 200 |
| `Imgur.ImgurLib.AuthorizeWithToken` | imgurlib.py:70-89 | the given pair is installed in the token fields, `token` and the client; the account-info probe is signed with it; the pair stays installed whatever the probe's outcome; the result is the probe's verdict |
| `Imgur.ImgurLib.SubmitRequest` | imgurlib.py:282-298 | exactly one request, signed with the consumer and the installed access token, then the status table applied to the response |
| `Imgur.ImgurLib.AccountInfo` | imgurlib.py:108-115 | a GET of `account.json`, classified by the status table |
| `Imgur.ImgurLib.UploadImage` | imgurlib.py:117-144 | a POST to `account/images.json` with `image` and `type` from the upload choice, plus `title` and `caption` |
| `Imgur.ImgurLib.GetAccountImages` | imgurlib.py:146-154 | a GET of `account/images.json` |
| `Imgur.ImgurLib.DeleteImage` | imgurlib.py:156-166 | a DELETE on the image's own endpoint |
| `Imgur.ImgurLib.GetImageInfo` | imgurlib.py:168-179 | a GET of the image's own endpoint |
| `Imgur.ImgurLib.GetImageCount` | imgurlib.py:181-190 | a GET of `account/images_count.json` |
| `Imgur.ImgurLib.GetAlbums` | imgurlib.py:192-212 | a GET of `account/albums.json` with `count` and `page`, 30 and 1 by default |
| `Imgur.ImgurLib.CreateAlbum` | imgurlib.py:214-235 | a POST to `account/albums.json` with `title`, `description` and `privacy`, `public` by default |
| `Imgur.ImgurLib.GetAlbumCount` | imgurlib.py:237-246 | a GET of `account/albums_count.json` |
| `Imgur.ImgurLib.GetCredits` | imgurlib.py:248-257 | a GET of `credits.json` |
| `Imgur.AuthorizeWithTokenTwice` | imgurlib.py:81-89 | two authorizations with the same pair and succeeding probes both return true and leave that pair installed |
| `Imgur.ThreeLeggedFlow` | imgurlib.py:47-106 | on a fresh client, a 200 gives an authorization URL carrying the request token; the request-token POST is signed with the consumer alone and the access-token POST with the request token carrying the pin; the token credentials are installed; the result is true exactly when the second status is 200 |

## Left out

- OAuth request signing (section 3.4 of RFC 5849: the signature base string, HMAC-SHA1, nonce and timestamp). It happens inside the `oauth2` library, which is not part of this model, and the nonce and clock make it nondeterministic. The model records only which consumer and token would sign each request (`Request.client`).
- The HTTP transport (`client.request`). Each response is a method parameter. Transport failures (DNS, refused connections, timeouts) are not modelled.
- `urlparse.parse_qsl` and `json.loads`. A handshake body is given as the map it parses to.
- Imgur.ImgurLib.GetAuthUrl: a handshake body without `oauth_token` or `oauth_token_secret` makes the Python code raise `KeyError`. The model excludes that input with the `CarriesToken` precondition instead of modelling the error. Imgur.ImgurLib.Authorize does the same.
- Imgur.ImgurLib.Authorize: called before `get_auth_url`, the Python code raises `AttributeError` (`set_verifier` on the initial empty string). The model excludes that call with a precondition. `set_verifier` is modelled as recording the pin as the token's verifier.
- Reading the file and base64-encoding it in `upload_image`. `Base64Of(path)` stands for the encoded contents.
- `urllib.urlencode`. Parameters are kept as a map from name to `ParamValue`, before encoding.
- The exception classes' message strings. Only the kind is modelled.
- Endpoints.GenerateLinks: takes an already decoded `ImageInfo(success, original, smallSquare)`. It does not model the `get_image_info` call inside `generate_links` (the call itself is `GetImageInfo`). It also does not model the subscripting of the raw body returned by `_submit_request` with `['success']` and `['result']`.
- PyText.Format: interprets only the `%s` and `%%` directives and treats any other `%` as an error. Python's `%d`, `%r` and the rest are outside the model; the library's templates use only `%s`.
